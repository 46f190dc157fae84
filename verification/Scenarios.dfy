/** Runs, step by step, to states that the documentation does not expect. */
module Scenarios {
  import opened Basics
  import opened Slots
  import opened TaskCounters
  import opened States
  import opened Steps
  import opened Invariant
  import opened Worlds
  import opened Prompts

  // ----- Runs of one process, alone in the world

  function Alone(s: State): World {
    World(map[s.p.pid := s.p], s.sockets)
  }

  lemma AloneStep(s: State, step: Step)
    requires Enabled(s, step)
    ensures Apply(s, step).p.pid == s.p.pid && WorldEnabled(Alone(s), Local(s.p.pid, step))
    ensures WorldApply(Alone(s), Local(s.p.pid, step)) == Alone(Apply(s, step))
  {
    StepFrame(s, step);
    assert At(Alone(s), s.p.pid) == s;
  }

  /** Process 1 reaches `s` from its start, after `unasked` calls of `wakeup` or `drain` on an unreadable stream of its first
      loop. */
  ghost predicate Reaches(order: Order, s: State, unasked: nat) {
    s.p.pid == 1 &&
    exists ws, steps ::
      Follows(ws, steps) && Initial(ws[0], order) && ws[|steps|] == Alone(s) && UnaskedCount(ws, steps, 1, 0) == unasked
  }

  lemma ReachesStart(order: Order)
    ensures Reaches(order, State(InitialProc(1, order), map[]), 0)
  {
    var w := Alone(State(InitialProc(1, order), map[]));
    assert 1 in w.procs;
    assert Follows([w], []);
    assert UnaskedCount([w], [], 1, 0) == 0;
  }

  lemma FollowsOn(ws: seq<World>, steps: seq<WorldStep>, step: WorldStep)
    requires Follows(ws, steps) && WorldEnabled(ws[|steps|], step)
    ensures Follows(ws + [WorldApply(ws[|steps|], step)], steps + [step])
    ensures UnaskedCount(ws + [WorldApply(ws[|steps|], step)], steps + [step], 1, 0)
         == UnaskedCount(ws, steps, 1, 0) + AsNat(UnaskedIn(ws[|steps|], step, 1, 0))
  {
    var ws', steps' := ws + [WorldApply(ws[|steps|], step)], steps + [step];
    assert ws'[..|steps'|] == ws && steps'[..|steps'| - 1] == steps;
  }

  lemma ReachesOn(order: Order, s: State, unasked: nat, step: Step)
    requires Reaches(order, s, unasked) && Enabled(s, step)
    ensures Reaches(order, Apply(s, step), unasked + AsNat(Unasked(s, step, 0)))
  {
    var ws, steps :|
      Follows(ws, steps) && Initial(ws[0], order) && ws[|steps|] == Alone(s) && UnaskedCount(ws, steps, 1, 0) == unasked;
    AloneStep(s, step);
    FollowsOn(ws, steps, Local(1, step));
    assert At(Alone(s), 1) == s;
    var ws' := ws + [Alone(Apply(s, step))];
    assert Follows(ws', steps + [Local(1, step)]) && ws'[0] == ws[0] && ws'[|steps| + 1] == Alone(Apply(s, step));
  }

  /** A set of states that steps stay in, other than such calls. */
  ghost predicate Onwards(reached: State -> bool) {
    forall s, step | reached(s) && Enabled(s, step) && !Unasked(s, step, 0) :: reached(Apply(s, step))
  }

  /** The states that a process reaches from its start without such calls. */
  ghost function FromStart(order: Order): State -> bool {
    s => Reaches(order, s, 0)
  }

  lemma Starts(order: Order)
    ensures Onwards(FromStart(order)) && FromStart(order)(State(InitialProc(1, order), map[]))
  {
    ReachesStart(order);
    forall s, step | FromStart(order)(s) && Enabled(s, step) && !Unasked(s, step, 0)
      ensures FromStart(order)(Apply(s, step))
    {
      ReachesOn(order, s, 0, step);
    }
  }

  lemma Goes(reached: State -> bool, s: State, step: Step)
    requires Onwards(reached) && reached(s) && Enabled(s, step) && !Unasked(s, step, 0)
    ensures reached(Apply(s, step))
  {
  }

  // ----- Steps, a few at a time

  /** The process with one loop, just initialized, with a runtime of its own. */
  function Fresh(order: Order, workers: nat): State {
    State(InitialProc(1, order).(
            loops := map[0 := Loop(1, 1, true, workers, 0, workers + 2)], current := Some(0),
            suspensions := map[0 := NOBODY], channels := map[0 := Channel([], true, [])], flags := map[0 := Flag(false, 0)],
            keepers := map[0 := Keeper(NO_TASKS, Some(0))]),
          map[0 := 0])
  }

  lemma ToFresh(reached: State -> bool, order: Order, workers: nat)
    requires 1 <= workers && Onwards(reached) && reached(State(InitialProc(1, order), map[]))
    ensures reached(Fresh(order, workers))
  {
    var s := State(InitialProc(1, order), map[]);
    Goes(reached, s, Init(true, 0, 0, workers, workers + 2));
    assert Apply(s, Init(true, 0, 0, workers, workers + 2)) == Fresh(order, workers);
  }

  /** `try_suspend_on` is called, up to its suspension. */
  function Called(s: State, f: Fiber): State
    requires Usable(s.p)
  {
    var p, id, l := s.p, s.p.nextId, s.p.current.value;
    s.(p := p.(nextId := id + 1,
               suspensions := p.suspensions[l := p.suspensions[l][id := f]],
               calls := p.calls[id := Call(l, false, f)],
               tasks := p.tasks[id := Task(Polling, None)],
               slots := p.slots[id := Running],
               callers := p.callers[id := Suspended],
               keepers := p.keepers[l := p.keepers[l].(tasks := AfterStart(p.keepers[l].tasks, false))]))
  }

  lemma ToStarted(reached: State -> bool, s: State, f: Fiber)
    requires Onwards(reached) && reached(s) && CanSpawn(s, f) && Usable(s.p)
    ensures CanStart(DoSpawn(s, f, false)) && reached(DoStart(DoSpawn(s, f, false)))
  {
    Goes(reached, s, Spawn(f, false));
    Goes(reached, DoSpawn(s, f, false), Start);
  }

  lemma CalledNow(s: State, f: Fiber)
    requires Usable(s.p) && s.p.pc.Idle?
    ensures DoSuspend(DoLaunch(DoStart(DoSpawn(s, f, false))), true) == Called(s, f)
  {
    var s4 := DoSuspend(DoLaunch(DoStart(DoSpawn(s, f, false))), true);
    assert s4.p.tasks == Called(s, f).p.tasks && s4.p.callers == Called(s, f).p.callers;
    assert s4 == Called(s, f);
  }

  lemma ToCalled(reached: State -> bool, s: State, f: Fiber)
    requires Onwards(reached) && reached(s) && CanSpawn(s, f) && Usable(s.p)
    ensures reached(Called(s, f))
  {
    ToStarted(reached, s, f);
    var s2 := DoStart(DoSpawn(s, f, false));
    Goes(reached, s2, Launch);
    Goes(reached, DoLaunch(s2), Suspend(true));
    CalledNow(s, f);
  }

  /** The future of `id` panics: up to the send. */
  function AfterPanic(s: State, id: Id): State {
    s.(p := s.p.(tasks := s.p.tasks[id := Task(Sending, Some(Panic))], slots := s.p.slots[id := Panicked],
                 pc := SlotNotified(s.p.pc, id)))
  }

  lemma ToClosed(reached: State -> bool, s: State, id: Id) returns (s': State)
    requires Onwards(reached) && reached(s) && CanWork(s, id) && s.p.tasks[id].phase.Polling?
    ensures CanWork(WorkLock(WorkPoll(s, id, Panic), id, Closing), id)
    ensures s' == WorkFinish(WorkLock(WorkPoll(s, id, Panic), id, Closing), id) && reached(s')
  {
    Goes(reached, s, Work(id, Panic));
    var s1 := WorkPoll(s, id, Panic);
    Goes(reached, s1, Work(id, Panic));
    var s2 := WorkLock(s1, id, Closing);
    Goes(reached, s2, Work(id, Panic));
    s' := WorkFinish(s2, id);
  }

  lemma ToPanic(reached: State -> bool, s: State, id: Id)
    requires Onwards(reached) && reached(s) && CanWork(s, id) && s.p.tasks[id].phase.Polling? && s.p.slots[id] == Running
    ensures reached(AfterPanic(s, id))
  {
    var s' := ToClosed(reached, s, id);
    Goes(reached, s', Work(id, Panic));
    assert WorkLock(s', id, Sending).p.tasks == AfterPanic(s, id).p.tasks;
    assert WorkLock(s', id, Sending) == AfterPanic(s, id);
  }

  // ----- The wakeup sequence, step by step

  /** A process with one loop, its first. */
  predicate Base(b: State, order: Order, workers: nat) {
    && b.p.pid == 1 && b.p.order == order && b.p.current == Some(0)
    && b.p.loops == map[0 := Loop(1, 1, true, workers, 0, workers + 2)]
    && b.p.callers.Keys == b.p.calls.Keys
    && forall id | id in b.p.calls :: b.p.calls[id].loop == 0 && !b.p.calls[id].borrowing
  }

  /** What the wakeup sequence is about, and the count of the calls on an unreadable stream. */
  datatype Shot = Shot(tasks: TaskMap, slots: map<Id, SlotState>, waiting: map<Id, Fiber>, channel: Channel, flag: Flag,
                       keeper: Keeper, pc: Pc, bytes: nat, collected: seq<Id>, toResume: set<Id>, unasked: nat)

  function On(b: State, v: Shot): State {
    State(b.p.(tasks := v.tasks, slots := v.slots, suspensions := map[0 := v.waiting], channels := map[0 := v.channel],
               flags := map[0 := v.flag], keepers := map[0 := v.keeper], pc := v.pc, collected := v.collected,
               toResume := v.toResume),
          map[0 := v.bytes])
  }

  /** Where the runs start, and what they do not change. */
  datatype Stage = Stage(reached: Shot -> bool, b: State, order: Order, workers: nat)

  ghost predicate Continues(g: Stage) {
    forall v, step, v' |
      && g.reached(v) && Enabled(On(g.b, v), step) && Apply(On(g.b, v), step) == On(g.b, v')
      && v'.unasked == v.unasked + AsNat(Unasked(On(g.b, v), step, 0)) :: g.reached(v')
  }

  lemma GoesOn(g: Stage, v: Shot, step: Step, v': Shot)
    requires Continues(g) && g.reached(v) && Enabled(On(g.b, v), step) && Apply(On(g.b, v), step) == On(g.b, v')
    requires v'.unasked == v.unasked + AsNat(Unasked(On(g.b, v), step, 0))
    ensures g.reached(v')
  {
  }

  lemma WorksOn(g: Stage, v: Shot, id: Id, v': Shot)
    requires Continues(g) && g.reached(v) && CanWork(On(g.b, v), id) && DoWork(On(g.b, v), id, Panic) == On(g.b, v')
    requires v'.unasked == v.unasked
    ensures g.reached(v')
  {
    GoesOn(g, v, Work(id, Panic), v');
  }

  ghost function StageAt(b: State, order: Order, workers: nat): Stage {
    Stage(v => Reaches(order, On(b, v), v.unasked), b, order, workers)
  }

  lemma StageNext(b: State, order: Order, workers: nat, v: Shot, step: Step, v': Shot)
    requires Reaches(order, On(b, v), v.unasked) && Enabled(On(b, v), step) && Apply(On(b, v), step) == On(b, v')
    requires v'.unasked == v.unasked + AsNat(Unasked(On(b, v), step, 0))
    ensures StageAt(b, order, workers).reached(v')
  {
    ReachesOn(order, On(b, v), v.unasked, step);
  }

  lemma StageContinues(b: State, order: Order, workers: nat)
    ensures Continues(StageAt(b, order, workers))
  {
    forall v, step, v' |
      && Reaches(order, On(b, v), v.unasked) && Enabled(On(b, v), step) && Apply(On(b, v), step) == On(b, v')
      && v'.unasked == v.unasked + AsNat(Unasked(On(b, v), step, 0))
      ensures StageAt(b, order, workers).reached(v')
    {
      StageNext(b, order, workers, v, step, v');
    }
  }

  ghost predicate Reached(g: Stage, v: Shot) {
    && Continues(g) && g.reached(v) && Base(g.b, g.order, g.workers) && v.channel.receiving
    && v.tasks.Keys == g.b.p.calls.Keys && v.slots.Keys == g.b.p.calls.Keys
  }

  function Phased(v: Shot, id: Id, phase: Phase): TaskMap
    requires id in v.tasks
  {
    v.tasks[id := v.tasks[id].(phase := phase)]
  }

  lemma Polls(g: Stage, v: Shot, id: Id) returns (v': Shot)
    requires Reached(g, v) && id in v.tasks && v.tasks[id] == Task(Polling, None)
    requires |Busy(g.b.p.calls, v.tasks, 0)| < g.workers
    ensures v' == v.(tasks := v.tasks[id := Task(Finishing, Some(Panic))])
    ensures Reached(g, v')
  {
    v' := v.(tasks := v.tasks[id := Task(Finishing, Some(Panic))]);
    WorksOn(g, v, id, v');
  }

  lemma Locks(g: Stage, v: Shot, id: Id, phase: Phase) returns (v': Shot)
    requires Reached(g, v) && id in v.tasks
    requires (v.tasks[id].phase.Finishing? && phase.Closing?) || (v.tasks[id].phase.Closed? && phase.Sending?)
    ensures v' == v.(tasks := Phased(v, id, phase)) && Reached(g, v')
  {
    v' := v.(tasks := Phased(v, id, phase));
    WorksOn(g, v, id, v');
  }

  lemma Finishes(g: Stage, v: Shot, id: Id) returns (v': Shot)
    requires Reached(g, v) && id in v.tasks && v.tasks[id].phase.Closing? && v.slots[id] == Running && !v.pc.SlotWaiting?
    ensures v' == v.(tasks := Phased(v, id, Phase.Closed), slots := v.slots[id := Panicked]) && Reached(g, v')
  {
    v' := v.(tasks := Phased(v, id, Phase.Closed), slots := v.slots[id := Panicked]);
    WorksOn(g, v, id, v');
  }

  /** A future that panics. */
  lemma Ends(g: Stage, v: Shot, id: Id) returns (v': Shot)
    requires Reached(g, v) && id in v.tasks && v.tasks[id] == Task(Polling, None) && v.slots[id] == Running
    requires |Busy(g.b.p.calls, v.tasks, 0)| < g.workers && !v.pc.SlotWaiting?
    ensures v' == v.(tasks := v.tasks[id := Task(Sending, Some(Panic))], slots := v.slots[id := Panicked])
    ensures Reached(g, v')
  {
    v' := Polls(g, v, id);
    v' := Locks(g, v', id, Closing);
    v' := Finishes(g, v', id);
    v' := Locks(g, v', id, Sending);
    assert v'.tasks == v.tasks[id := Task(Sending, Some(Panic))];
  }

  lemma Sends(g: Stage, v: Shot, id: Id) returns (v': Shot)
    requires Reached(g, v) && id in v.tasks && v.tasks[id].phase.Sending?
    ensures v' == v.(tasks := Phased(v, id, Swapping), channel := v.channel.(queue := v.channel.queue + [id]))
    ensures Reached(g, v')
  {
    v' := v.(tasks := Phased(v, id, Swapping), channel := v.channel.(queue := v.channel.queue + [id]));
    assert WorkSend(On(g.b, v), id).p.channels == On(g.b, v').p.channels;
    assert WorkSend(On(g.b, v), id) == On(g.b, v');
    WorksOn(g, v, id, v');
  }

  lemma Swaps(g: Stage, v: Shot, id: Id) returns (v': Shot)
    requires Reached(g, v) && id in v.tasks && v.tasks[id].phase.Swapping? && !v.flag.pending
    ensures v' == v.(tasks := Phased(v, id, Writing), flag := v.flag.(pending := true))
    ensures Reached(g, v')
  {
    v' := v.(tasks := Phased(v, id, Writing), flag := v.flag.(pending := true));
    assert WorkSwap(On(g.b, v), id).p.flags == On(g.b, v').p.flags;
    assert WorkSwap(On(g.b, v), id) == On(g.b, v');
    WorksOn(g, v, id, v');
  }

  function Written(v: Shot, id: Id): Shot
    requires id in v.tasks
  {
    v.(tasks := Phased(v, id, Ending), bytes := v.bytes + 1)
  }

  lemma WritesNow(g: Stage, v: Shot, id: Id)
    requires Reached(g, v) && id in v.tasks && v.tasks[id].phase.Writing? && v.bytes < g.workers + 2
    ensures CanWork(On(g.b, v), id) && DoWork(On(g.b, v), id, Panic) == On(g.b, Written(v, id))
  {
    assert WorkWrite(On(g.b, v), id).sockets == On(g.b, Written(v, id)).sockets;
  }

  lemma Writes(g: Stage, v: Shot, id: Id) returns (v': Shot)
    requires Reached(g, v) && id in v.tasks && v.tasks[id].phase.Writing? && v.bytes < g.workers + 2
    ensures v' == v.(tasks := Phased(v, id, Ending), bytes := v.bytes + 1)
    ensures Reached(g, v')
  {
    v' := Written(v, id);
    WritesNow(g, v, id);
    WorksOn(g, v, id, v');
  }

  function Stopped(v: Shot, id: Id): Shot
    requires id in v.tasks
  {
    v.(tasks := Phased(v, id, Ended), keeper := v.keeper.(tasks := AfterEnd(v.keeper.tasks, false).0))
  }

  lemma StopsNow(g: Stage, v: Shot, id: Id)
    requires Reached(g, v) && id in v.tasks && v.tasks[id].phase.Ending?
    requires v.keeper.tasks.release == None && !v.pc.BorrowWaiting?
    ensures CanWork(On(g.b, v), id) && DoWork(On(g.b, v), id, Panic) == On(g.b, Stopped(v, id))
  {
    assert WorkEnd(On(g.b, v), id).p.keepers == On(g.b, Stopped(v, id)).p.keepers;
  }

  /** The task is over: its worker thread is free. */
  lemma Stops(g: Stage, v: Shot, id: Id) returns (v': Shot)
    requires Reached(g, v) && id in v.tasks && v.tasks[id].phase.Ending?
    requires v.keeper.tasks.release == None && !v.pc.BorrowWaiting?
    ensures v' == v.(tasks := Phased(v, id, Ended), keeper := v.keeper.(tasks := AfterEnd(v.keeper.tasks, false).0))
    ensures v'.keeper.tasks.release == None
    ensures Reached(g, v')
  {
    v' := Stopped(v, id);
    StopsNow(g, v, id);
    WorksOn(g, v, id, v');
  }

  lemma Enters(g: Stage, v: Shot) returns (v': Shot)
    requires Reached(g, v) && v.pc.Idle?
    ensures v' == v.(pc := FirstHalf(g.order, []), unasked := v.unasked + AsNat(v.bytes == 0)) && Reached(g, v')
  {
    v' := v.(pc := FirstHalf(g.order, []), unasked := v.unasked + AsNat(v.bytes == 0));
    GoesOn(g, v, Wakeup, v');
  }

  lemma Reads(g: Stage, v: Shot) returns (v': Shot)
    requires Reached(g, v) && v.pc.Draining? && 1 <= v.bytes <= 64
    ensures v' == v.(bytes := 0) && Reached(g, v')
  {
    v' := v.(bytes := 0);
    assert DoRead(On(g.b, v)).sockets == On(g.b, v').sockets;
    GoesOn(g, v, Read, v');
  }

  function FoundEmpty(g: Stage, v: Shot): Shot
    requires v.pc.Draining?
  {
    v.(flag := v.flag.(straddlers := |Writers(g.b.p.calls, v.tasks, 0)|),
       pc := if g.order == DrainFirst then Rearming(v.pc.ready) else Collecting(v.pc.ready))
  }

  lemma FindsEmpty(g: Stage, v: Shot)
    requires Base(g.b, g.order, g.workers) && v.pc.Draining? && v.bytes == 0
    ensures CanRead(On(g.b, v)) && !Readable(On(g.b, v)) && DoReadNothing(On(g.b, v)) == On(g.b, FoundEmpty(g, v))
  {
    assert DoReadNothing(On(g.b, v)).p.flags == On(g.b, FoundEmpty(g, v)).p.flags;
  }

  lemma ReadsNothing(g: Stage, v: Shot) returns (v': Shot)
    requires Reached(g, v) && v.pc.Draining? && v.bytes == 0
    ensures v' == FoundEmpty(g, v) && Reached(g, v')
  {
    v' := FoundEmpty(g, v);
    FindsEmpty(g, v);
    GoesOn(g, v, Read, v');
  }

  lemma Clears(g: Stage, v: Shot) returns (v': Shot)
    requires Reached(g, v) && v.pc.Rearming?
    ensures v' == v.(flag := v.flag.(pending := false),
                     pc := if g.order == DrainFirst then Collecting(v.pc.ready) else Draining(v.pc.ready))
    ensures Reached(g, v')
  {
    v' := v.(flag := v.flag.(pending := false),
             pc := if g.order == DrainFirst then Collecting(v.pc.ready) else Draining(v.pc.ready));
    assert DoRearm(On(g.b, v)).p.flags == On(g.b, v').p.flags;
    GoesOn(g, v, Rearm, v');
  }

  function CollectedOne(v: Shot): Shot
    requires v.channel.queue != [] && v.pc.Collecting?
  {
    var id := v.channel.queue[0];
    v.(channel := v.channel.(queue := v.channel.queue[1..], received := v.channel.received + [id]),
       waiting := v.waiting - {id}, collected := v.collected + [id], pc := Collecting(v.pc.ready + [id]))
  }

  lemma PopsOne(b: State, v: Shot)
    requires Usable(On(b, v).p) && b.p.current == Some(0)
    requires v.pc.Collecting? && v.channel.queue != [] && v.channel.queue[0] in v.waiting
    ensures DoCollect(On(b, v)) == On(b, CollectedOne(v))
  {
    var s := On(b, v);
    assert DoCollect(s).p.channels == On(b, CollectedOne(v)).p.channels;
    assert DoCollect(s).p.suspensions == On(b, CollectedOne(v)).p.suspensions;
  }

  /** Collects the first ID that was sent. */
  lemma CollectsOne(g: Stage, v: Shot) returns (v': Shot)
    requires Reached(g, v) && v.pc.Collecting? && v.channel.queue != [] && v.channel.queue[0] in v.waiting
    ensures v' == CollectedOne(v)
    ensures Reached(g, v')
  {
    v' := CollectedOne(v);
    PopsOne(g.b, v);
    GoesOn(g, v, Collect, v');
  }

  /** The empty channel ends the sequence. */
  lemma Leaves(g: Stage, v: Shot) returns (v': Shot)
    requires Reached(g, v) && v.pc.Collecting? && v.channel.queue == []
    ensures v' == v.(pc := Idle, toResume := v.toResume + set id | id in v.pc.ready)
    ensures Reached(g, v')
  {
    v' := v.(pc := Idle, toResume := v.toResume + set id | id in v.pc.ready);
    assert DoStopCollecting(On(g.b, v)) == On(g.b, v');
    GoesOn(g, v, Collect, v');
  }

  /** A whole `wakeup`, in the order of the code: it empties the socket, and clears the flag. */
  lemma Wakes(g: Stage, v: Shot, id: Id) returns (v': Shot)
    requires Reached(g, v) && g.order == DrainFirst && v.pc.Idle? && v.bytes <= 1
    requires v.channel.queue == [id] && id in v.waiting
    ensures Reached(g, v') && v'.pc.Idle? && v'.bytes == 0 && !v'.flag.pending && v'.channel.queue == []
    ensures v'.waiting == v.waiting - {id} && v'.tasks == v.tasks && v'.slots == v.slots && v'.keeper == v.keeper
    ensures v'.toResume == v.toResume + {id} && v'.unasked == v.unasked + AsNat(v.bytes == 0)
  {
    v' := Enters(g, v);
    if v.bytes > 0 {
      v' := Reads(g, v');
    }
    v' := ReadsNothing(g, v');
    v' := Clears(g, v');
    v' := CollectsOne(g, v');
    assert v'.pc.ready == [id] && (set i | i in [id]) == {id};
    v' := Leaves(g, v');
  }
}
