/** Where the documentation promises more than the code gives: runs that show it, and the exact promise. */
module Findings {
  import opened Basics
  import opened Slots
  import opened States
  import opened Steps
  import opened Invariant
  import opened Worlds
  import opened Theorems
  import Isolation
  import Prompts
  import opened Orders
  import opened Scenarios

  // ----- Calls that wait

  /** The first `n` IDs. */
  function Below(n: nat): (ids: set<Id>)
    ensures forall id :: id in ids <==> 0 <= id < n
    ensures |ids| == n
  {
    if n == 0 then {} else Below(n - 1) + {n - 1}
  }

  /** All the fields of the one loop are there. */
  predicate Single(s: State) {
    s.p.suspensions.Keys == {0} && s.p.channels.Keys == {0} && s.p.flags.Keys == {0} && s.p.keepers.Keys == {0}
    && s.sockets.Keys == {0}
  }

  /** `n` fibers wait for `n` futures that run. */
  predicate Open(s: State, order: Order, workers: nat, n: nat) {
    && Base(s, order, workers) && Single(s) && s.p.pc.Idle? && s.p.nextId == n && s.sockets[0] == 0
    && s.p.channels[0] == Channel([], true, []) && !s.p.flags[0].pending && s.p.keepers[0].tasks.release == None
    && s.p.tasks.Keys == s.p.calls.Keys && s.p.slots.Keys == s.p.calls.Keys
    && (forall id | id in s.p.calls :: 0 <= id < n)
    && forall id | 0 <= id < n ::
         id in s.p.calls && s.p.calls[id].fiber == id && s.p.tasks[id] == Task(Polling, None) && s.p.slots[id] == Running
         && s.p.callers[id] == Suspended && id in s.p.suspensions[0]
  }

  function ShotOf(s: State): Shot
    requires Single(s)
  {
    Shot(s.p.tasks, s.p.slots, s.p.suspensions[0], s.p.channels[0], s.p.flags[0], s.p.keepers[0], s.p.pc, s.sockets[0],
         s.p.collected, s.p.toResume, 0)
  }

  lemma OfOne<V>(m: map<int, V>)
    requires m.Keys == {0}
    ensures map[0 := m[0]] == m
  {
  }

  lemma ShotHere(s: State)
    requires Single(s)
    ensures On(s, ShotOf(s)) == s
  {
    OfOne(s.p.suspensions);
    OfOne(s.p.channels);
    OfOne(s.p.flags);
    OfOne(s.p.keepers);
    OfOne(s.sockets);
  }

  lemma RunTo(order: Order, s: State, unasked: nat) returns (ws: seq<World>, steps: seq<WorldStep>)
    requires Reaches(order, s, unasked)
    ensures Follows(ws, steps) && Initial(ws[0], order) && ws[|steps|] == Alone(s)
    ensures Prompts.UnaskedCount(ws, steps, 1, 0) == unasked
  {
    ws, steps :|
      && Follows(ws, steps) && Initial(ws[0], order) && ws[|steps|] == Alone(s)
      && Prompts.UnaskedCount(ws, steps, 1, 0) == unasked;
  }

  /** These runs are runs of the world that the theorems are about. */
  lemma FromStartReachable(s: State)
    requires FromStart(DrainFirst)(s)
    ensures s.p.pid == 1 && Reachable(Alone(s))
  {
    var ws, steps := RunTo(DrainFirst, s, 0);
    FollowsNext(ws, steps);
    assert Run(ws, DrainFirst);
  }

  lemma OneMore(s: State, order: Order, workers: nat, n: nat)
    requires Open(s, order, workers, n)
    ensures CanSpawn(s, n) && Usable(s.p) && Open(Called(s, n), order, workers, n + 1)
  {
  }

  lemma {:induction false} ToOpen(reached: State -> bool, order: Order, workers: nat, n: nat) returns (s: State)
    requires 1 <= workers && Onwards(reached) && reached(State(InitialProc(1, order), map[]))
    ensures reached(s) && Open(s, order, workers, n)
  {
    if n == 0 {
      ToFresh(reached, order, workers);
      s := Fresh(order, workers);
    } else {
      var r := ToOpen(reached, order, workers, n - 1);
      OneMore(r, order, workers, n - 1);
      ToCalled(reached, r, n - 1);
      s := Called(r, n - 1);
    }
  }

  /** From `i` on, nothing happened. */
  predicate Later(v: Shot, i: nat, n: nat) {
    forall id | i <= id < n ::
      id in v.tasks && id in v.slots && v.tasks[id] == Task(Polling, None) && v.slots[id] == Running && id in v.waiting
  }

  /** A stage on which `n` fibers wait for `n` futures that run. */
  ghost predicate Opened(g: Stage, v: Shot, n: nat) {
    && Reached(g, v) && v.pc.Idle? && v.bytes == 0 && v.unasked == 0 && !v.flag.pending && v.channel == Channel([], true, [])
    && 1 <= g.workers && v.keeper.tasks.release == None && Later(v, 0, n) && forall id | id in v.tasks :: 0 <= id < n
  }

  lemma Opens(order: Order, workers: nat, n: nat) returns (g: Stage, v: Shot)
    requires 1 <= workers
    ensures Opened(g, v, n) && Open(g.b, order, workers, n) && g == StageAt(g.b, order, workers)
  {
    Starts(order);
    var b := ToOpen(FromStart(order), order, workers, n);
    ShotHere(b);
    StageContinues(b, order, workers);
    g, v := StageAt(b, order, workers), ShotOf(b);
  }

  // ----- How many bytes the socket holds

  /** Under way: the first `done` tasks are `over`, those up to `n` did not end yet. */
  predicate Under(g: Stage, v: Shot, n: nat) {
    && g.order == DrainFirst && 1 <= g.workers && v.keeper.tasks.release == None && !v.flag.pending && v.channel.queue == []
    && forall id | id in v.tasks :: 0 <= id < n
  }

  /** `i` writes in flight, each of a task that a `wakeup` collected before its byte. */
  ghost predicate Straddling(g: Stage, v: Shot, i: nat, n: nat) {
    && Reached(g, v) && Under(g, v, n) && v.pc.Idle? && v.bytes == 0 && v.unasked == i && i <= n
    && Later(v, i, n) && forall id | 0 <= id < i :: id in v.tasks && v.tasks[id].phase.Writing?
  }

  lemma BusyBelow(calls: Calls, tasks: TaskMap, i: nat)
    requires forall id | id in calls && id in tasks && Occupying(tasks[id].phase) :: 0 <= id < i
    ensures |Busy(calls, tasks, 0)| <= i
  {
    SubsetSize(Busy(calls, tasks, 0), Below(i));
  }

  lemma EndsWriting(g: Stage, v: Shot, i: nat, n: nat) returns (v': Shot)
    requires Straddling(g, v, i, n) && i < g.workers && i < n
    ensures Reached(g, v') && v'.tasks == v.tasks[i := Task(Writing, Some(Panic))] && v'.slots == v.slots[i := Panicked]
    ensures v'.channel.queue == [i] && v'.pc.Idle? && v'.bytes == 0 && v'.waiting == v.waiting && v'.keeper == v.keeper
    ensures v'.unasked == v.unasked
  {
    BusyBelow(g.b.p.calls, v.tasks, i);
    v' := Ends(g, v, i);
    v' := Sends(g, v', i);
    v' := Swaps(g, v', i);
  }

  lemma OneMoreStraddles(g: Stage, v: Shot, i: nat, n: nat) returns (v': Shot)
    requires Straddling(g, v, i, n) && i < g.workers && i < n
    ensures Straddling(g, v', i + 1, n)
  {
    v' := EndsWriting(g, v, i, n);
    v' := Wakes(g, v', i);
  }

  lemma {:induction false} AllStraddle(g: Stage, v: Shot, i: nat, n: nat) returns (v': Shot)
    requires Straddling(g, v, i, n) && i <= g.workers <= n
    ensures Straddling(g, v', g.workers, n)
    decreases g.workers - i
  {
    v' := v;
    if i < g.workers {
      v' := OneMoreStraddles(g, v, i, n);
      v' := AllStraddle(g, v', i + 1, n);
    }
  }

  /** The socket was just found empty, with the flag clear: then `j` of the straddling writes land. */
  ghost predicate Landing(g: Stage, v: Shot, j: nat, n: nat) {
    && Reached(g, v) && Under(g, v, n) && v.pc == Rearming([]) && v.bytes == j && j <= g.workers <= n
    && v.unasked == g.workers + 1
    && Later(v, g.workers, n)
    && forall id | 0 <= id < g.workers ::
         id in v.tasks && if id < j then v.tasks[id].phase.Ended? else v.tasks[id].phase.Writing?
  }

  lemma {:induction false} AllLand(g: Stage, v: Shot, j: nat, n: nat) returns (v': Shot)
    requires Landing(g, v, j, n)
    ensures Landing(g, v', g.workers, n) && v'.flag == v.flag
    decreases g.workers - j
  {
    v' := v;
    if j < g.workers {
      v' := Writes(g, v, j);
      v' := Stops(g, v', j);
      v' := AllLand(g, v', j + 1, n);
    }
  }

  /** A task that ends with the flag clear writes its byte. */
  lemma Notifies(g: Stage, v: Shot, id: Id) returns (v': Shot)
    requires Reached(g, v) && id in v.tasks && v.tasks[id] == Task(Polling, None) && v.slots[id] == Running
    requires !v.pc.SlotWaiting? && !v.pc.BorrowWaiting? && !v.flag.pending && v.bytes < g.workers + 2
    requires forall i | i in v.tasks :: !Occupying(v.tasks[i].phase)
    requires 1 <= g.workers && v.keeper.tasks.release == None
    ensures Reached(g, v') && v'.bytes == v.bytes + 1 && v'.flag.pending && v'.channel.queue == v.channel.queue + [id]
    ensures v'.pc == v.pc && v'.waiting == v.waiting && v'.keeper.tasks.release == None
    ensures v'.flag.straddlers == v.flag.straddlers && v'.unasked == v.unasked
    ensures v'.tasks == v.tasks[id := Task(Ended, Some(Panic))] && v'.slots == v.slots[id := Panicked]
  {
    BusyBelow(g.b.p.calls, v.tasks, 0);
    v' := Ends(g, v, id);
    v' := Sends(g, v', id);
    v' := Swaps(g, v', id);
    v' := Writes(g, v', id);
    v' := Stops(g, v', id);
  }

  lemma StartsLanding(g: Stage, v: Shot, n: nat) returns (v': Shot)
    requires Straddling(g, v, g.workers, n) && g.workers <= n
    ensures Landing(g, v', 0, n) && v'.flag.straddlers == g.workers
  {
    v' := Enters(g, v);
    assert Writers(g.b.p.calls, v'.tasks, 0) == Below(g.workers);
    v' := ReadsNothing(g, v');
  }

  /** All the straddling bytes, and that of a task that ends before the flag is cleared. */
  lemma FillsButOne(g: Stage, v: Shot, n: nat) returns (v': Shot)
    requires Straddling(g, v, g.workers, n) && n == g.workers + 2
    ensures Reached(g, v') && v'.pc == Rearming([]) && v'.bytes == g.workers + 1 && v'.channel.queue == [g.workers]
    ensures g.workers in v'.waiting && Later(v', g.workers + 1, n) && v'.keeper.tasks.release == None
    ensures v'.flag.straddlers == g.workers && v'.unasked == g.workers + 1
    ensures forall id | id in v'.tasks :: !Occupying(v'.tasks[id].phase)
  {
    v' := StartsLanding(g, v, n);
    v' := AllLand(g, v', 0, n);
    v' := Notifies(g, v', g.workers);
  }

  /** And that of a task that ends after. */
  lemma Fills(g: Stage, v: Shot, n: nat) returns (v': Shot)
    requires Straddling(g, v, g.workers, n) && n == g.workers + 2
    ensures Reached(g, v') && v'.bytes == g.workers + 2 && v'.flag.straddlers == g.workers && v'.unasked == g.workers + 1
  {
    v' := FillsButOne(g, v, n);
    v' := Clears(g, v');
    v' := CollectsOne(g, v');
    v' := Leaves(g, v');
    v' := Notifies(g, v', g.workers + 1);
  }

  lemma ReachedOnStage(order: Order, workers: nat, g: Stage, v: Shot)
    requires Reached(g, v) && g == StageAt(g.b, order, workers)
    ensures Reaches(order, On(g.b, v), v.unasked)
  {
  }

  /** The bounds of `SocketBound` and `BytesBound` are exact: with any number of worker threads, every one of them straddling,
      the socket is filled with a byte of each, and two more: one more than the calls on an unreadable stream. */
  lemma SocketFills(workers: nat) returns (ws: seq<World>, steps: seq<WorldStep>)
    requires 1 <= workers
    ensures Follows(ws, steps) && Initial(ws[0], DrainFirst) && 1 in ws[|steps|].procs
    ensures Prompts.UnaskedCount(ws, steps, 1, 0) == workers + 1
    ensures var w, p := ws[|steps|], ws[|steps|].procs[1];
      && p.loops == map[0 := Loop(1, 1, true, workers, 0, workers + 2)] && 0 in p.flags && 0 in w.sockets
      && p.flags[0].straddlers == workers && w.sockets[0] == workers + 2
  {
    var n := workers + 2;
    var g, v := Opens(DrainFirst, workers, n);
    v := AllStraddle(g, v, 0, n);
    v := Fills(g, v, n);
    ReachedOnStage(DrainFirst, workers, g, v);
    ws, steps := RunTo(DrainFirst, On(g.b, v), workers + 1);
  }

  // ----- Clearing the flag first

  /** A task ends before `wakeup`, and one between its two halves, with the flag just cleared. */
  lemma EndsBetween(g: Stage, v: Shot) returns (v': Shot)
    requires Opened(g, v, 2) && g.order == RearmFirst
    ensures Reached(g, v') && v'.pc == Draining([]) && v'.bytes == 2 && v'.flag.pending && v'.unasked == 0
    ensures v'.channel.queue == [0, 1] && v'.waiting == v.waiting
    ensures v'.tasks == v.tasks[0 := Task(Ended, Some(Panic))][1 := Task(Ended, Some(Panic))]
  {
    v' := Notifies(g, v, 0);
    v' := Enters(g, v');
    v' := Clears(g, v');
    v' := Notifies(g, v', 1);
  }

  /** Its byte is drained: the flag stays set, with the socket empty. */
  lemma Swallows(g: Stage, v: Shot) returns (v': Shot)
    requires Opened(g, v, 2) && g.order == RearmFirst
    ensures Reached(g, v') && v'.pc.Idle? && v'.bytes == 0 && v'.flag.pending && v'.unasked == 0
    ensures v'.tasks == v.tasks[0 := Task(Ended, Some(Panic))][1 := Task(Ended, Some(Panic))]
  {
    v' := EndsBetween(g, v);
    v' := Reads(g, v');
    v' := ReadsNothing(g, v');
    v' := CollectsOne(g, v');
    v' := CollectsOne(g, v');
    v' := Leaves(g, v');
  }

  lemma ShotStuck(g: Stage, v: Shot)
    requires Reached(g, v) && v.pc.Idle? && v.bytes == 0 && v.flag.pending
    requires forall id | id in v.tasks :: v.tasks[id].phase.Ended?
    requires forall id | id in g.b.p.calls :: id < g.b.p.nextId
    ensures Stuck(On(g.b, v), 0)
  {
    var s := On(g.b, v);
    assert forall id :: id !in Writers(s.p.calls, s.p.tasks, 0);
    assert Writers(s.p.calls, s.p.tasks, 0) == {};
  }

  lemma BothEnded(g: Stage, v: Shot, v': Shot)
    requires Open(g.b, RearmFirst, 1, 2) && v.tasks.Keys == g.b.p.calls.Keys
    requires v'.tasks == v.tasks[0 := Task(Ended, Some(Panic))][1 := Task(Ended, Some(Panic))]
    ensures forall id | id in v'.tasks :: v'.tasks[id].phase.Ended?
    ensures forall id | id in g.b.p.calls :: id < g.b.p.nextId
  {
  }

  /** Clearing the flag before draining reaches a stuck state, with a single worker thread and two futures, although `wakeup`
      is only called on a readable stream. */
  lemma RearmingFirstGetsStuck() returns (s: State)
    ensures FromStart(RearmFirst)(s) && Stuck(s, 0)
  {
    var g, v := Opens(RearmFirst, 1, 2);
    var v' := Swallows(g, v);
    BothEnded(g, v, v');
    ShotStuck(g, v');
    v := v';
    ReachedOnStage(RearmFirst, 1, g, v);
    s := On(g.b, v);
  }

  // ----- Whether a caller that was resumed blocks

  /** PHP does not get past the check of the slot: it waits for its lock, or sleeps. */
  predicate Blocks(s: State) {
    !CanCheckSlot(s) || Asleep(DoCheckSlot(s).p.pc)
  }

  lemma ResumedSleeps(s: State, id: Id, target: Id)
    requires CanResume(s, id, Some(target))
    ensures var s1 := DoResumeCall(s, id, Some(target));
      CanContinue(s1, target) && (Blocks(DoContinue(s1, target)) <==> Isolation.Unready(s.p, target))
  {
  }

  /** The exact promise: the `resume` call that `wakeup` makes for `id` runs a caller that blocks if, and only if, that
      caller waits for another call than `id`, whose future still runs, or whose task holds the lock of its slot. */
  lemma ResumedBlocks(w: World, pid: Pid, id: Id, target: Id)
    requires In(w, pid) && CanResume(At(w, pid), id, Some(target))
    ensures var s := At(w, pid);
      var s1 := DoResumeCall(s, id, Some(target));
      CanContinue(s1, target) && (Blocks(DoContinue(s1, target)) <==> target != id && Isolation.Unready(s.p, target))
  {
    NoBlockingAfterHandover(w, pid, id);
    ResumedSleeps(At(w, pid), id, target);
  }

  /** The fiber of call 0 made call 1 since someone else resumed it: the ID 0 is still to be sent. */
  predicate Recalled(s: State) {
    && Base(s, DrainFirst, 1) && Single(s) && s.p.pc.Idle? && s.sockets[0] == 0 && !s.p.flags[0].pending
    && s.p.channels[0] == Channel([], true, [])
    && s.p.tasks.Keys == s.p.calls.Keys == s.p.slots.Keys == {0, 1} && s.p.calls[0].fiber == s.p.calls[1].fiber
    && s.p.tasks[0].phase.Sending? && s.p.slots[1] == Running && s.p.callers[1].Suspended? && 0 in s.p.suspensions[0]
  }

  /** Its fiber returned from call 0. */
  predicate Answered(s: State) {
    && Base(s, DrainFirst, 1) && Single(s) && s.p.pc.Idle? && s.sockets[0] == 0 && !s.p.flags[0].pending
    && s.p.channels[0] == Channel([], true, []) && s.p.nextId == 1
    && s.p.tasks.Keys == s.p.calls.Keys == s.p.slots.Keys == {0} && s.p.calls[0].fiber == 0
    && s.p.tasks[0].phase.Sending? && s.p.callers[0].Left? && 0 in s.p.suspensions[0]
  }

  /** Someone else resumes the caller, which waits in `Slot::wait`. */
  lemma Waits(reached: State -> bool, b: State) returns (s: State)
    requires Onwards(reached) && reached(b) && Open(b, DrainFirst, 1, 1)
    ensures reached(s) && s == b.(p := b.p.(callers := s.p.callers, pc := SlotWaiting(0, false)))
    ensures s.p.callers == b.p.callers[0 := Waiting(Foreign)]
  {
    Goes(reached, b, ForeignResume(0));
    var s1 := DoForeignResume(b, 0);
    Goes(reached, s1, Continue(0));
    s := DoContinue(s1, 0);
  }

  /** Its future ends, and it returns. */
  lemma Answers(reached: State -> bool, b: State) returns (s: State)
    requires Onwards(reached) && reached(b) && Open(b, DrainFirst, 1, 1)
    ensures reached(s) && Answered(s)
  {
    var s2 := Waits(reached, b);
    assert 0 in b.p.calls;
    assert forall id :: id in b.p.calls <==> id == 0;
    BusyBelow(s2.p.calls, s2.p.tasks, 0);
    ToPanic(reached, s2, 0);
    var s3 := AfterPanic(s2, 0);
    Goes(reached, s3, CheckSlot);
    s := DoTake(s3);
  }

  lemma CallsAgain(s: State)
    requires Answered(s)
    ensures CanSpawn(s, 0) && Usable(s.p) && Recalled(Called(s, 0))
  {
  }

  lemma CalledAgain() returns (g: Stage, v: Shot)
    ensures Reached(g, v) && g == StageAt(g.b, DrainFirst, 1) && Recalled(g.b) && v == ShotOf(g.b)
  {
    Starts(DrainFirst);
    var b := ToOpen(FromStart(DrainFirst), DrainFirst, 1, 1);
    var a := Answers(FromStart(DrainFirst), b);
    CallsAgain(a);
    ToCalled(FromStart(DrainFirst), a, 0);
    ShotHere(Called(a, 0));
    StageContinues(Called(a, 0), DrainFirst, 1);
    g, v := StageAt(Called(a, 0), DrainFirst, 1), ShotOf(Called(a, 0));
  }

  /** The ID 0 is sent, and a byte for it. */
  lemma Rings(g: Stage, v: Shot) returns (v': Shot)
    requires Reached(g, v) && Recalled(g.b) && v == ShotOf(g.b)
    ensures Reached(g, v') && v'.pc.Idle? && v'.bytes == 1 && v'.channel.queue == [0] && v'.unasked == 0
    ensures v'.waiting == v.waiting && v'.slots == v.slots
  {
    v' := Sends(g, v, 0);
    v' := Swaps(g, v', 0);
    v' := Writes(g, v', 0);
  }

  lemma Resumable0(b: State, v: Shot)
    requires Recalled(b) && v.pc.Idle? && 0 in v.toResume && v.tasks.Keys == b.p.calls.Keys && v.slots == b.p.slots
    ensures CanResume(On(b, v), 0, Some(1)) && On(b, v).p.slots[1] == Running
  {
  }

  /** Such a `resume` call happens, although `wakeup` is only called on a readable stream. */
  lemma StaleResumeHappens() returns (s: State)
    ensures FromStart(DrainFirst)(s) && CanResume(s, 0, Some(1)) && s.p.slots[1] == Running
  {
    var g, v := CalledAgain();
    v := Rings(g, v);
    v := Wakes(g, v, 0);
    ReachedOnStage(DrainFirst, 1, g, v);
    Resumable0(g.b, v);
    s := On(g.b, v);
  }

  // ----- A fork while a worker holds the lock of a slot

  /** The future of call `id` produced a value, which `Slot::set` stored, without unlocking the slot yet. */
  lemma Stores(reached: State -> bool, b: State, id: Id, value: Value) returns (s: State)
    requires Onwards(reached) && reached(b) && CanWork(b, id) && b.p.tasks[id].phase.Polling?
    ensures CanWork(WorkLock(WorkPoll(b, id, Produced(value)), id, Storing), id)
    ensures s == WorkSet(WorkLock(WorkPoll(b, id, Produced(value)), id, Storing), id) && reached(s)
  {
    Goes(reached, b, Work(id, Produced(value)));
    var s1 := WorkPoll(b, id, Produced(value));
    Goes(reached, s1, Work(id, Panic));
    var s2 := WorkLock(s1, id, Storing);
    Goes(reached, s2, Work(id, Panic));
    s := WorkSet(s2, id);
  }

  lemma StoresOne(value: Value) returns (s: State)
    ensures FromStart(DrainFirst)(s) && s.p.pc.Idle? && OwnCall(s.p, 0)
    ensures s.p.slots[0] == Completed(value) && s.p.tasks[0].phase.Stored? && s.p.callers[0].Suspended?
  {
    Starts(DrainFirst);
    var b := ToOpen(FromStart(DrainFirst), DrainFirst, 1, 1);
    BusyBelow(b.p.calls, b.p.tasks, 0);
    s := Stores(FromStart(DrainFirst), b, 0, value);
  }

  /** `set` unlocks the slot, and notifies; then `finish` locks it. */
  lemma Closes(reached: State -> bool, b: State, id: Id) returns (s: State)
    requires Onwards(reached) && reached(b) && OwnCall(b.p, id) && b.p.tasks[id].phase.Stored? && b.p.pc.Idle?
    ensures reached(s) && s == b.(p := b.p.(tasks := s.p.tasks)) && id in s.p.tasks && s.p.tasks[id].phase.Closing?
  {
    Goes(reached, b, Work(id, Panic));
    var s1 := WorkLock(b, id, SetNotifying);
    Goes(reached, s1, Work(id, Panic));
    var s2 := WorkNotifySet(s1, id);
    Goes(reached, s2, Work(id, Panic));
    s := WorkLock(s2, id, Closing);
  }

  /** A slot that is over can hang a child too: forked while a worker holds its lock, in `set` or in `finish`, the child waits
      for the lock forever. */
  lemma LockedSlotHangs(value: Value, finishing: bool) returns (s: State)
    ensures FromStart(DrainFirst)(s) && OwnCall(s.p, 0) && s.p.slots[0] == Completed(value)
    ensures s.p.tasks[0].phase == if finishing then Closing else Stored
    ensures exists w1, w2, w3 :: WorldNext(Alone(s), w1) && WorldNext(w1, w2) && WorldNext(w2, w3) && Isolation.Hung(w3, 2, 0)
  {
    s := StoresOne(value);
    if finishing {
      Starts(DrainFirst);
      s := Closes(FromStart(DrainFirst), s, 0);
    }
    FromStartReachable(s);
    Isolation.ResumedChildHangs(Alone(s), 1, 0, 2);
  }
}
