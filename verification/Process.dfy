/** The code: what the threads of one process do, one critical section after another. */
module Processes {
  import opened Basics
  import opened Slots
  import opened TaskCounters
  import Notify
  import opened States
  import opened Steps
  import opened Invariant
  import opened Progress
  import opened Theorems
  import opened Gathering
  import opened Meanwhile
  import opened Going
  import opened Resuming

  class Process {
    const pid: Pid
    var loops: map<LoopId, Loop>
    var current: Option<LoopId>
    var suspensions: map<LoopId, map<Id, Fiber>>
    var channels: map<LoopId, Channel>
    var flags: map<LoopId, Flag>
    var keepers: map<LoopId, Keeper>
    var nextId: Id
    var calls: map<Id, Call>
    var tasks: map<Id, Task>
    var slots: map<Id, SlotState>
    var callers: map<Id, Caller>
    var pc: Pc
    var sharedRuntime: Option<Pid>
    var toResume: set<Id>
    var collected: seq<Id>
    var unregistered: set<Id>
    var abandoned: set<Id>
    var released: multiset<LoopId>
    /** The kernel's. */
    var sockets: map<Sock, nat>
    /** The states that atomic steps reach, from the start of the process. */
    ghost const reached: State -> bool

    function View(): State
      reads this
    {
      State(Proc(pid, DrainFirst, loops, current, suspensions, channels, flags, keepers, nextId, calls, tasks, slots, callers,
                 pc, sharedRuntime, toResume, collected, unregistered, abandoned, released),
            sockets)
    }

    /** Whatever was done was done by atomic steps. */
    ghost predicate Good()
      reads this
    {
      Onwards(reached) && Sound(reached) && reached(View())
    }

    /** A loop is usable if `check_owned` passes. */
    lemma UsableHere()
      requires Good()
      ensures Usable(View().p) <==> Refuses(current, loops, pid) == None
    {
      assert Inv(View());
    }

    lemma SocketHere()
      requires Good() && Usable(View().p)
      ensures loops[current.value].socket in sockets
    {
      assert Inv(View());
      SocketThere(View());
    }

    constructor (pid: Pid)
      ensures Good() && View() == State(InitialProc(pid, DrainFirst), map[])
      ensures forall s :: reached(s) == Leads(State(InitialProc(pid, DrainFirst), map[]), s)
    {
      this.pid := pid;
      loops, current, suspensions, channels, flags, keepers := map[], None, map[], map[], map[], map[];
      nextId, calls, tasks, slots, callers := 0, map[], map[], map[], map[];
      pc, sharedRuntime, toResume := Idle, None, {};
      collected, unregistered, abandoned, released := [], {}, {}, multiset{};
      sockets := map[];
      reached := s => Leads(State(InitialProc(pid, DrainFirst), map[]), s);
      new;
      InitialInv(pid, map[]);
      LeadsSound(View());
      LeadsOnwards(View());
      LeadsHere(View());
    }

    /** A fork: the child's memory is a copy; its loops are the parent's. */
    constructor Forked(parent: Process, child: Pid)
      requires parent.Good() && parent.pc.Idle? && Own(child, parent.loops) == {}
      ensures Good() && View() == parent.View().(p := parent.View().p.(pid := child))
    {
      pid := child;
      loops, current, suspensions := parent.loops, parent.current, parent.suspensions;
      channels, flags, keepers := parent.channels, parent.flags, parent.keepers;
      nextId, calls, tasks := parent.nextId, parent.calls, parent.tasks;
      slots, callers, pc := parent.slots, parent.callers, parent.pc;
      sharedRuntime, toResume, collected := parent.sharedRuntime, parent.toResume, parent.collected;
      unregistered, abandoned, released := parent.unregistered, parent.abandoned, parent.released;
      sockets := parent.sockets;
      ghost var start := parent.View().(p := parent.View().p.(pid := child));
      reached := s => Leads(start, s);
      new;
      assert Inv(parent.View());
      ForkSound(parent.View(), child);
      LeadsOnwards(start);
      LeadsHere(start);
    }

    // ----- A worker thread, section by section

    method Poll(id: Id, outcome: Outcome)
      requires CanWork(View(), id) && tasks[id].phase.Polling?
      modifies this`tasks
      ensures View() == WorkPoll(old(View()), id, outcome)
    {
      tasks := tasks[id := Task(if outcome.Produced? then Setting else Finishing, Some(outcome))];
    }

    /** `set`, or `finish`, takes the lock of the slot. */
    method Lock(id: Id)
      requires CanWork(View(), id) && (tasks[id].phase.Setting? || tasks[id].phase.Finishing?)
      modifies this`tasks
      ensures View() == WorkLock(old(View()), id, if old(tasks[id].phase.Setting?) then Storing else Closing)
    {
      tasks := tasks[id := tasks[id].(phase := if tasks[id].phase.Setting? then Storing else Closing)];
    }

    /** And releases it. */
    method Unlock(id: Id)
      requires CanWork(View(), id) && (tasks[id].phase.Stored? || tasks[id].phase.Closed?)
      modifies this`tasks
      ensures View() == WorkLock(old(View()), id, if old(tasks[id].phase.Stored?) then SetNotifying else Sending)
    {
      tasks := tasks[id := tasks[id].(phase := if tasks[id].phase.Stored? then SetNotifying else Sending)];
    }

    method StoreValue(id: Id)
      requires CanWork(View(), id) && tasks[id].phase.Storing?
      modifies this`tasks, this`slots
      ensures View() == WorkSet(old(View()), id)
    {
      slots := slots[id := Completed(tasks[id].outcome.value.value)];
      tasks := tasks[id := tasks[id].(phase := Stored)];
    }

    method NotifySlot(id: Id)
      requires CanWork(View(), id) && tasks[id].phase.SetNotifying?
      modifies this`tasks, this`pc
      ensures View() == WorkNotifySet(old(View()), id)
    {
      if pc == SlotWaiting(id, true) {
        pc := SlotWaiting(id, false);
      }
      tasks := tasks[id := tasks[id].(phase := Finishing)];
    }

    method Finish(id: Id)
      requires CanWork(View(), id) && tasks[id].phase.Closing?
      modifies this`tasks, this`slots, this`pc
      ensures View() == WorkFinish(old(View()), id)
    {
      if slots[id] == Running {
        slots := slots[id := Panicked];
      }
      assert slots == old(slots)[id := slots[id]];
      if pc == SlotWaiting(id, true) {
        pc := SlotWaiting(id, false);
      }
      tasks := tasks[id := tasks[id].(phase := Closed)];
    }

    method Send(id: Id)
      requires CanWork(View(), id) && tasks[id].phase.Sending?
      modifies this`tasks, this`channels
      ensures View() == WorkSend(old(View()), id)
    {
      var l := calls[id].loop;
      if channels[l].receiving {
        channels := channels[l := channels[l].(queue := channels[l].queue + [id])];
      }
      assert channels == old(channels)[l := channels[l]];
      tasks := tasks[id := tasks[id].(phase := Swapping)];
    }

    method Swap(id: Id)
      requires CanWork(View(), id) && tasks[id].phase.Swapping?
      modifies this`tasks, this`flags
      ensures View() == WorkSwap(old(View()), id)
    {
      var l := calls[id].loop;
      var was := flags[l].pending;
      flags := flags[l := flags[l].(pending := true)];
      tasks := tasks[id := tasks[id].(phase := if was then Ending else Writing)];
    }

    method Write(id: Id)
      requires CanWork(View(), id) && tasks[id].phase.Writing?
      modifies this`tasks, this`sockets
      ensures View() == WorkWrite(old(View()), id)
    {
      var loop := loops[calls[id].loop];
      if sockets[loop.socket] < loop.capacity {
        sockets := sockets[loop.socket := sockets[loop.socket] + 1];
      }
      assert sockets == old(sockets)[loop.socket := sockets[loop.socket]];
      tasks := tasks[id := tasks[id].(phase := Ending)];
    }

    /** The counters of `Task::drop`; the last task takes the parked runtime. */
    method EndTask(l: LoopId, borrowed: bool) returns (taken: Option<LoopId>)
      requires l in keepers
      modifies this`keepers
      ensures keepers == old(keepers)[l := old(keepers[l]).(tasks := AfterEnd(old(keepers[l].tasks), borrowed).0)]
      ensures taken == AfterEnd(old(keepers[l].tasks), borrowed).1
    {
      var t := keepers[l].tasks;
      t := t.(running := t.running - 1, borrowing := t.borrowing - if borrowed then 1 else 0);
      taken := None;
      if t.running == 0 {
        taken := t.release;
        t := t.(release := None);
      }
      keepers := keepers[l := keepers[l].(tasks := t)];
    }

    method End(id: Id)
      requires CanWork(View(), id) && tasks[id].phase.Ending?
      modifies this`tasks, this`keepers, this`pc
      ensures View() == WorkEnd(old(View()), id)
    {
      var l := calls[id].loop;
      var taken := EndTask(l, calls[id].borrowing);
      if pc == BorrowWaiting(l, true) {
        pc := BorrowWaiting(l, false);
      }
      tasks := tasks[id := tasks[id].(phase := if taken.Some? then Releasing(taken.value) else Ended)];
    }

    method ReleaseInBackground(id: Id)
      requires CanWork(View(), id) && tasks[id].phase.Releasing?
      modifies this`tasks, this`released
      ensures View() == WorkRelease(old(View()), id)
    {
      released := released + multiset{tasks[id].phase.runtime};
      tasks := tasks[id := tasks[id].(phase := Ended)];
    }

    /** The next section of the task of `id`. */
    method Work(id: Id, outcome: Outcome)
      requires Good() && CanWork(View(), id)
      modifies this`tasks, this`slots, this`pc, this`channels, this`flags, this`sockets, this`keepers, this`released
      ensures Good() && View() == DoWork(old(View()), id, outcome)
    {
      match tasks[id].phase {
        case Polling => Poll(id, outcome);
        case Setting => Lock(id);
        case Storing => StoreValue(id);
        case Stored => Unlock(id);
        case SetNotifying => NotifySlot(id);
        case Finishing => Lock(id);
        case Closing => Finish(id);
        case Closed => Unlock(id);
        case Sending => Send(id);
        case Swapping => Swap(id);
        case Writing => Write(id);
        case Ending => End(id);
        case Releasing(_) => ReleaseInBackground(id);
      }
      WorkGoes(reached, old(View()), id, outcome);
    }

    /** Whatever the tasks do before the PHP thread goes on. */
    method Others()
      requires Good()
      modifies this`tasks, this`slots, this`pc, this`channels, this`flags, this`sockets, this`keepers, this`released
      ensures Good() && Unmoved(old(View()), View())
      ensures !Asleep(old(pc)) ==> pc == old(pc)
    {
      while *
        invariant Good() && Unmoved(old(View()), View())
        invariant !Asleep(old(pc)) ==> pc == old(pc)
        decreases |Remaining(tasks)|
      {
        if !exists id | id in tasks :: CanWork(View(), id) {
          break;
        }
        var id :| id in tasks && CanWork(View(), id);
        var outcome: Outcome := *;
        ghost var s := View();
        Work(id, outcome);
        WorkUnmoved(s, id, outcome);
        WorkShrinks(s, id, outcome);
        UnmovedOn(old(View()), s, View());
      }
    }

    /** The same, since `start`. */
    method OthersSince(ghost start: State)
      requires Good() && !Asleep(pc) && Unmoved(start, View())
      modifies this`tasks, this`slots, this`pc, this`channels, this`flags, this`sockets, this`keepers, this`released
      ensures Good() && Unmoved(start, View()) && pc == old(pc)
    {
      ghost var s := View();
      Others();
      UnmovedOn(start, s, View());
    }

    // ----- `wakeup` and `drain`

    /** One read of `Receiver::drain`. */
    method Read() returns (n: nat)
      requires Good() && CanRead(View())
      modifies this`sockets, this`flags, this`pc
      ensures Good() && View() == DoReadNext(old(View()))
      ensures var k := loops[current.value].socket; n + sockets[k] == old(sockets[k])
      ensures n > 0 <==> old(Readable(View()))
    {
      var k := loops[current.value].socket;
      n := if sockets[k] > Notify.BUFFER then Notify.BUFFER else sockets[k];
      if n > 0 {
        sockets := sockets[k := sockets[k] - n];
      } else {
        var writing := |Writers(calls, tasks, current.value)|;
        flags := flags[current.value := flags[current.value].(straddlers := writing)];
        pc := Rearming(pc.ready);
      }
      ReadGoes(reached, old(View()));
    }

    /** The next read, after whatever was written meanwhile. */
    method ReadNext() returns (n: nat)
      requires Good() && CanRead(View())
      modifies this`tasks, this`slots, this`pc, this`channels, this`flags, this`sockets, this`keepers, this`released
      ensures Good() && Unmoved(old(View()), View())
      ensures n > 0 ==> pc == old(pc) && CanRead(View())
      ensures n == 0 ==> pc == Rearming(old(pc).ready)
      ensures var k := old(loops[current.value].socket);
        k in sockets && n + sockets[k] + |Remaining(tasks)| <= old(sockets[k] + |Remaining(tasks)|)
    {
      Others();
      ghost var s := View();
      n := Read();
      ReadUnmoved(s);
      UnmovedOn(old(View()), s, View());
    }

    /** `Receiver::drain`, among writers: it ends, with the socket once found empty. */
    method DrainSocket()
      requires Good() && CanRead(View())
      modifies this`tasks, this`slots, this`pc, this`channels, this`flags, this`sockets, this`keepers, this`released
      ensures Good() && Unmoved(old(View()), View()) && pc == Rearming(old(pc).ready)
    {
      ghost var start := View();
      ghost var k := loops[current.value].socket;
      var n := 1;
      while n > 0
        invariant Good() && Unmoved(start, View()) && k in sockets
        invariant n > 0 ==> pc == start.p.pc && CanRead(View())
        invariant n == 0 ==> pc == Rearming(start.p.pc.ready)
        decreases sockets[k] + |Remaining(tasks)| + n
      {
        ghost var s := View();
        n := ReadNext();
        UnmovedOn(start, s, View());
      }
    }

    method Rearm()
      requires Good() && CanRearm(View())
      modifies this`flags, this`pc
      ensures Good() && View() == DoRearm(old(View()))
    {
      flags := flags[current.value := flags[current.value].(pending := false)];
      pc := Collecting(pc.ready);
      RearmGoes(reached, old(View()));
    }

    method RearmNext()
      requires Good() && CanRearm(View())
      modifies this`tasks, this`slots, this`pc, this`channels, this`flags, this`sockets, this`keepers, this`released
      ensures Good() && Unmoved(old(View()), View()) && pc == Collecting(old(pc).ready)
    {
      Others();
      ghost var s := View();
      Rearm();
      RearmUnmoved(s);
      UnmovedOn(old(View()), s, View());
    }

    /** Moves the first ID of the channel out, and its caller, if it is registered, out of the map. */
    method Remove() returns (ready: seq<Id>)
      requires Usable(View().p) && channels[current.value].queue != []
      modifies this`channels, this`suspensions, this`collected
      ensures View() == Pop(old(View()), pc)
      ensures forall before: seq<Id> :: before + ready == old(Extended(View().p, before))
    {
      var l := current.value;
      var c := channels[l];
      var id := c.queue[0];
      channels := channels[l := c.(queue := c.queue[1..], received := c.received + [id])];
      ready := if id in suspensions[l] then [id] else [];
      suspensions := suspensions[l := suspensions[l] - {id}];
      collected := collected + ready;
    }

    /** One turn of `try_iter`. */
    method CollectNext() returns (more: bool)
      requires Good() && CanCollect(View())
      modifies this`channels, this`suspensions, this`collected, this`toResume, this`pc
      ensures Good() && View() == DoCollectNext(old(View()))
      ensures more == !old(CollectEnds(View().p))
    {
      more := channels[current.value].queue != [];
      if more {
        var ready := Remove();
        pc := Collecting(pc.ready + ready);
      } else {
        toResume := toResume + set id | id in pc.ready;
        pc := Idle;
      }
      CollectGoes(reached, old(View()));
    }

    /** The next turn, after whatever was sent meanwhile. */
    method CollectMore(ghost s0: State, ghost ids0: seq<Id>) returns (more: bool, ready: seq<Id>, ghost ids: seq<Id>)
      requires Good() && CanCollect(View()) && Gathered(s0, View(), current.value, ids0)
      requires pc.ready == Sift(s0.p.suspensions[current.value], ids0)
      modifies this
      ensures Good() && current == old(current) && ids0 <= ids
      ensures more ==> CanCollect(View()) && Gathered(s0, View(), current.value, ids)
      ensures ready == Sift(s0.p.suspensions[old(current.value)], ids) && (more ==> pc.ready == ready)
      ensures more ==>
          |channels[current.value].queue| + |Remaining(tasks)| < old(|channels[current.value].queue| + |Remaining(tasks)|)
      ensures !more ==> Collected(s0, View(), old(current.value), ids)
    {
      Others();
      ghost var l, s := current.value, View();
      GatheredUnmoved(s0, old(View()), s, l, ids0);
      ready := pc.ready;
      more := CollectNext();
      if more {
        ready := pc.ready;
      }
      ids := CollectGathers(s0, s, l, ids0);
    }

    /** All of `try_iter`: it ends, on an empty channel. */
    method CollectAll(ghost s0: State, ghost ids0: seq<Id>) returns (ready: seq<Id>, ghost ids: seq<Id>)
      requires Good() && CanCollect(View()) && Gathered(s0, View(), current.value, ids0)
      requires pc.ready == Sift(s0.p.suspensions[current.value], ids0)
      modifies this
      ensures Good() && Collected(s0, View(), old(current.value), ids) && ids0 <= ids
      ensures ready == Sift(s0.p.suspensions[old(current.value)], ids)
    {
      ids, ready := ids0, pc.ready;
      var more := true;
      while more
        invariant Good() && current == old(current) && ids0 <= ids
        invariant more ==> CanCollect(View()) && Gathered(s0, View(), current.value, ids) && pc.ready == ready
        invariant ready == Sift(s0.p.suspensions[current.value], ids)
        invariant !more ==> Collected(s0, View(), old(current.value), ids)
        decreases more, if more then |channels[current.value].queue| + |Remaining(tasks)| else 0
      {
        more, ready, ids := CollectMore(s0, ids);
      }
    }

    /** The end that `wakeup` and `drain` share. */
    method CollectRest(ghost s0: State, ghost ids0: seq<Id>) returns (ready: seq<Id>, ghost ids: seq<Id>)
      requires Good() && CanRead(View()) && Gathered(s0, View(), current.value, ids0)
      requires pc.ready == Sift(s0.p.suspensions[current.value], ids0)
      modifies this
      ensures Good() && Collected(s0, View(), old(current.value), ids) && ids0 <= ids
      ensures ready == Sift(s0.p.suspensions[old(current.value)], ids)
    {
      DrainSocket();
      ghost var s := View();
      GatheredUnmoved(s0, old(View()), s, current.value, ids0);
      RearmNext();
      GatheredUnmoved(s0, s, View(), current.value, ids0);
      ready, ids := CollectAll(s0, ids0);
    }

    /** `wakeup`, up to its ready list. */
    method WakeupReady() returns (ready: seq<Id>, ghost ids: seq<Id>)
      requires Good() && pc.Idle?
      modifies this
      ensures Good()
      ensures if old(Usable(View().p)) then Collected(old(View()), View(), old(current.value), ids) else View() == old(View())
      ensures ready == if old(Usable(View().p)) then Sift(old(suspensions[current.value]), ids) else []
    {
      ready, ids := [], [];
      if !Usable(View().p) {
        return;
      }
      SocketHere();
      GatheredHere(View(), current.value);
      pc := Draining([]);
      WakeupGoes(reached, old(View()));
      ready, ids := CollectRest(old(View()), []);
    }

    /** One turn of the receive loop of `drain`, once there is an ID, or the deadline passed. */
    method ReceiveNext() returns (more: bool)
      requires Good() && CanReceive(View())
      modifies this`channels, this`suspensions, this`collected, this`pc
      ensures Good() && View() == DoReceiveNext(old(View()))
      ensures more == !old(ReceiveEnds(View().p))
    {
      var l := current.value;
      more := suspensions[l] != NOBODY && channels[l].queue != [];
      if more {
        var ready := Remove();
        pc := Receiving(pc.ready + ready, pc.late);
      } else {
        pc := Draining(pc.ready);
      }
      ReceiveGoes(reached, old(View()));
    }

    method PassDeadline()
      requires Good() && pc.Receiving? && !pc.late
      modifies this`pc
      ensures Good() && View() == DoDeadline(old(View()))
    {
      pc := Receiving(pc.ready, true);
      DeadlineGoes(reached, old(View()));
    }

    /** Blocks until `ReceiveNext` can go on. */
    method AwaitReceive()
      requires Good() && pc.Receiving? && Usable(View().p)
      modifies this`tasks, this`slots, this`pc, this`channels, this`flags, this`sockets, this`keepers, this`released
      ensures Good() && Unmoved(old(View()), View()) && CanReceive(View()) && pc.ready == old(pc).ready
    {
      Others();
      if !CanReceive(View()) {
        ghost var s := View();
        PassDeadline();
        DeadlineUnmoved(s);
        UnmovedOn(old(View()), s, View());
      }
    }

    method ReceiveMore(ghost s0: State, ghost ids0: seq<Id>) returns (more: bool, late: bool, ghost ids: seq<Id>)
      requires Good() && pc.Receiving? && Usable(View().p) && Gathered(s0, View(), current.value, ids0)
      requires pc.ready == Sift(s0.p.suspensions[current.value], ids0) && Wanted(s0.p.suspensions[current.value], ids0)
      modifies this
      ensures Good() && current == old(current) && Usable(View().p) && Gathered(s0, View(), current.value, ids)
      ensures Wanted(s0.p.suspensions[current.value], ids)
      ensures (if more then pc.Receiving? else pc.Draining?) && pc.ready == Sift(s0.p.suspensions[current.value], ids)
      ensures more ==>
          |channels[current.value].queue| + |Remaining(tasks)| < old(|channels[current.value].queue| + |Remaining(tasks)|)
      ensures !more ==> Exhausted(View(), current.value, late)
    {
      AwaitReceive();
      ghost var l, s := current.value, View();
      GatheredUnmoved(s0, old(View()), s, l, ids0);
      late := pc.late;
      more := ReceiveNext();
      ids := ReceiveGathers(s0, s, l, ids0);
    }

    /** The receive loop of `drain`: it ends, without a registered caller, or late. */
    method ReceiveAll(ghost s0: State) returns (late: bool, ghost ids: seq<Id>)
      requires Good() && pc == Receiving([], false) && Usable(View().p) && Gathered(s0, View(), current.value, [])
      modifies this
      ensures Good() && current == old(current) && Usable(View().p) && Gathered(s0, View(), current.value, ids)
      ensures pc == Draining(Sift(s0.p.suspensions[current.value], ids))
      ensures Exhausted(View(), current.value, late) && Wanted(s0.p.suspensions[current.value], ids)
    {
      late, ids := false, [];
      var more := true;
      while more
        invariant Good() && current == old(current) && Usable(View().p) && Gathered(s0, View(), current.value, ids)
        invariant (if more then pc.Receiving? else pc.Draining?) && pc.ready == Sift(s0.p.suspensions[current.value], ids)
        invariant !more ==> Exhausted(View(), current.value, late)
        invariant Wanted(s0.p.suspensions[current.value], ids)
        decreases more, |channels[current.value].queue| + |Remaining(tasks)|
      {
        more, late, ids := ReceiveMore(s0, ids);
      }
    }

    /** `drain`, up to its ready list: it collects as `wakeup` does; it left its receive loop, at `left`, exhausted, having
        received `first` of the IDs. */
    method DrainReady()
      returns (late: bool, ready: seq<Id>, ghost ids: seq<Id>, ghost left: State, ghost first: seq<Id>)
      requires Good() && pc.Idle?
      modifies this
      ensures Good()
      ensures if old(Usable(View().p)) then Collected(old(View()), View(), old(current.value), ids) else View() == old(View())
      ensures ready == if old(Usable(View().p)) then Sift(old(suspensions[current.value]), ids) else []
      ensures old(Usable(View().p)) ==>
          && reached(left) && Gathered(old(View()), left, old(current.value), first) && first <= ids
          && left.p.pc == Draining(Sift(old(suspensions[current.value]), first)) && Exhausted(left, old(current.value), late)
          && Wanted(old(suspensions[current.value]), first)
    {
      late, ready, ids, left, first := false, [], [], View(), [];
      if !Usable(View().p) {
        return;
      }
      GatheredHere(View(), current.value);
      pc := Receiving([], false);
      DrainGoes(reached, old(View()));
      late, first := ReceiveAll(old(View()));
      left := View();
      SocketHere();
      ready, ids := CollectRest(old(View()), first);
    }

    // ----- The waits

    method WakeSpuriously()
      requires Good() && Asleep(pc)
      modifies this`pc
      ensures Good() && View() == DoWakeSpuriously(old(View()))
    {
      pc := Awake(pc);
      WakeSpuriouslyGoes(reached, old(View()));
    }

    /** Some task steps: PHP blocks on a future of its own process, so one can. */
    method SomeoneSteps()
      requires Good() && Blocked(View()) && (pc.SlotWaiting? ==> OwnCall(View().p, pc.id))
      modifies this`tasks, this`slots, this`pc, this`channels, this`flags, this`sockets, this`keepers, this`released
      ensures Good() && Unmoved(old(View()), View()) && (pc == old(pc) || pc == Awake(old(pc)))
      ensures |Remaining(tasks)| < old(|Remaining(tasks)|)
    {
      ghost var s := View();
      assert Inv(s);
      ghost var worker := SleepersHaveWorkers(s);
      assert worker in tasks && CanWork(View(), worker);
      var id :| id in tasks && CanWork(View(), id);
      var outcome: Outcome := *;
      Work(id, outcome);
      WorkUnmoved(s, id, outcome);
      WorkShrinks(s, id, outcome);
      WorkWakes(s, id, outcome);
    }

    /** A spurious wakeup, of those left, or a step of a task. */
    method SleepOn(spurious: nat) returns (left: nat)
      requires Good() && Asleep(pc) && (pc.SlotWaiting? ==> OwnCall(View().p, pc.id))
      modifies this`tasks, this`slots, this`pc, this`channels, this`flags, this`sockets, this`keepers, this`released
      ensures Good() && Unmoved(old(View()), View()) && (pc == old(pc) || pc == Awake(old(pc)))
      ensures |Remaining(tasks)| + left < old(|Remaining(tasks)|) + spurious
    {
      left := spurious;
      var spuriously: bool := *;
      if left > 0 && spuriously {
        SpuriousUnmoved(View());
        WakeSpuriously();
        left := left - 1;
      } else {
        SomeoneSteps();
      }
    }

    /** `Condvar::wait`: it ends, since the tasks end, whatever number of times it wakes up spuriously. */
    method Sleep(spurious: nat) returns (left: nat)
      requires Good() && Asleep(pc) && (pc.SlotWaiting? ==> OwnCall(View().p, pc.id))
      modifies this`tasks, this`slots, this`pc, this`channels, this`flags, this`sockets, this`keepers, this`released
      ensures Good() && Unmoved(old(View()), View()) && pc == Awake(old(pc))
      ensures |Remaining(tasks)| + left < old(|Remaining(tasks)|) + spurious
    {
      ghost var start := View();
      left := SleepOn(spurious);
      while Asleep(pc)
        invariant Good() && Unmoved(start, View()) && (pc == start.p.pc || pc == Awake(start.p.pc))
        invariant |Remaining(tasks)| + left < |Remaining(start.p.tasks)| + spurious
        decreases |Remaining(tasks)| + left
      {
        ghost var s := View();
        left := SleepOn(left);
        UnmovedOn(start, s, View());
      }
    }

    /** The same, since `start`. */
    method SleepSince(ghost start: State, spurious: nat) returns (left: nat)
      requires Good() && Asleep(pc) && (pc.SlotWaiting? ==> OwnCall(View().p, pc.id)) && Unmoved(start, View())
      modifies this`tasks, this`slots, this`pc, this`channels, this`flags, this`sockets, this`keepers, this`released
      ensures Good() && Unmoved(start, View()) && pc == Awake(old(pc))
      ensures |Remaining(tasks)| + left < |Remaining(start.p.tasks)| + spurious
    {
      ghost var s := View();
      left := Sleep(spurious);
      UnmovedOn(start, s, View());
    }

    /** `Slot::wait` finds the slot over: moves the result out. */
    method Take() returns (value: Option<Value>)
      requires Good() && CanCheckSlot(View()) && slots[pc.id] != Running
      modifies this`slots, this`callers, this`pc
      ensures Good() && View() == DoTake(old(View())) && value == Result(old(slots[pc.id]))
    {
      var id := pc.id;
      value := if slots[id].Completed? then Some(slots[id].value) else None;
      slots := slots[id := Taken];
      callers := callers[id := Left(if value.Some? then Returned(value.value) else FuturePanicked)];
      pc := Idle;
      CheckSlotGoes(reached, old(View()));
    }

    /** `Slot::wait` finds it running. */
    method Doze()
      requires Good() && CanCheckSlot(View()) && slots[pc.id] == Running
      modifies this`pc
      ensures Good() && View() == DoSleep(old(View()))
    {
      pc := SlotWaiting(pc.id, true);
      CheckSlotGoes(reached, old(View()));
    }

    /** A task of this process that holds the lock of the slot goes on, and releases it. */
    method AwaitLock()
      requires Good() && CanWait(View().p)
      modifies this`tasks, this`slots, this`pc, this`channels, this`flags, this`sockets, this`keepers, this`released
      ensures Good() && Unmoved(old(View()), View()) && pc == old(pc) && CanWait(View().p)
      ensures !Locked(tasks[pc.id].phase)
    {
      ghost var start := View();
      while Locked(tasks[pc.id].phase)
        invariant Good() && Unmoved(start, View()) && pc == start.p.pc && CanWait(View().p)
        decreases |Remaining(tasks)|
      {
        ghost var s := View();
        SomeoneSteps();
        UnmovedOn(start, s, View());
        WaitsOn(s, View());
      }
    }

    /** A caller that was handed over waits for nothing. */
    lemma Finds()
      requires Good() && CanWait(View().p)
      ensures callers[pc.id] == Waiting(Handed) ==> CanCheckSlot(View()) && slots[pc.id] != Running
    {
      assert Inv(View());
      if callers[pc.id] == Waiting(Handed) {
        HandedOver(View());
      }
    }

    /** `Slot::wait` takes the lock of the slot, once it is free; a caller that was handed over finds it free. */
    method AcquireSlot() returns (blocked: bool)
      requires Good() && CanWait(View().p)
      modifies this`tasks, this`slots, this`pc, this`channels, this`flags, this`sockets, this`keepers, this`released
      ensures Good() && Unmoved(old(View()), View()) && pc == old(pc) && CanCheckSlot(View()) && CanWait(View().p)
      ensures old(callers[pc.id]) == Waiting(Handed) ==> !blocked
    {
      Others();
      ghost var s := View();
      WaitsOn(old(View()), s);
      Finds();
      blocked := Locked(tasks[pc.id].phase);
      AwaitLock();
      UnmovedOn(old(View()), s, View());
    }

    /** One turn of the loop of `Slot::wait`. */
    method CheckSlot() returns (over: bool, value: Option<Value>, blocked: bool)
      requires Good() && CanWait(View().p)
      modifies this`tasks, this`slots, this`pc, this`channels, this`flags, this`sockets, this`keepers, this`released, this`callers
      ensures Good()
      ensures over ==> Answers(old(View()), View(), old(pc.id), value)
      ensures !over ==> Unmoved(old(View()), View()) && pc == SlotWaiting(old(pc.id), true)
      ensures !over ==> old(OwnCall(View().p, pc.id))
      ensures old(callers[pc.id]) == Waiting(Handed) ==> over && !blocked
    {
      blocked := AcquireSlot();
      ghost var s := View();
      assert Inv(s);
      Finds();
      over, value := slots[pc.id] != Running, None;
      if over {
        value := Take();
        SlotAnswers(s);
        AnswersAfter(old(View()), s, View(), s.p.pc.id, value);
      } else {
        Doze();
        DozeUnmoved(s);
        UnmovedOn(old(View()), s, View());
      }
    }

    method CheckSlotOrSleep(spurious: nat) returns (over: bool, value: Option<Value>, blocked: bool, left: nat)
      requires Good() && CanWait(View().p)
      modifies this`tasks, this`slots, this`pc, this`channels, this`flags, this`sockets, this`keepers, this`released, this`callers
      ensures Good()
      ensures over ==> Answers(old(View()), View(), old(pc.id), value)
      ensures !over ==> Unmoved(old(View()), View()) && pc == old(pc) && CanWait(View().p)
      ensures !over ==> |Remaining(tasks)| + left < old(|Remaining(tasks)|) + spurious
      ensures old(callers[pc.id]) == Waiting(Handed) ==> over && !blocked
    {
      over, value, blocked := CheckSlot();
      left := spurious;
      if !over {
        left := SleepSince(old(View()), spurious);
        WaitsOn(old(View()), View());
      }
    }

    /** `Slot::wait`: it ends with the caller's own result, whenever it can end: for a call of this process, or a slot that is
        over and not locked; a caller that was handed over never blocks. */
    method WaitSlot(spurious: nat) returns (value: Option<Value>, blocked: bool)
      requires Good() && CanWait(View().p)
      modifies this`tasks, this`slots, this`pc, this`channels, this`flags, this`sockets, this`keepers, this`released, this`callers
      ensures Good() && Answers(old(View()), View(), old(pc.id), value)
      ensures old(callers[pc.id]) == Waiting(Handed) ==> !blocked
    {
      ghost var start := View();
      var left := spurious;
      var over := false;
      value, blocked := None, false;
      while !over
        invariant Good()
        invariant over ==> Answers(start, View(), start.p.pc.id, value)
        invariant !over ==> Unmoved(start, View()) && pc == start.p.pc && CanWait(View().p)
        invariant blocked ==> start.p.callers[start.p.pc.id] != Waiting(Handed)
        decreases !over, |Remaining(tasks)| + left
      {
        ghost var s := View();
        var waited;
        over, value, waited, left := CheckSlotOrSleep(left);
        blocked := blocked || waited || !over;
        if over {
          AnswersAfter(start, s, View(), start.p.pc.id, value);
        } else {
          UnmovedOn(start, s, View());
        }
      }
    }

    // ----- `shutdown`

    /** One turn of the loop of `wait_borrowing`. */
    method CheckBorrowing() returns (over: bool)
      requires Good() && CanCheckBorrowing(View())
      modifies this`pc
      ensures Good() && View() == DoCheckBorrowing(old(View())) && over == pc.ReleasingRuntime?
    {
      over := keepers[pc.loop].tasks.borrowing <= 0;
      pc := if over then ReleasingRuntime(pc.loop) else BorrowWaiting(pc.loop, true);
      CheckBorrowingGoes(reached, old(View()));
    }

    method CheckBorrowingNext() returns (over: bool)
      requires Good() && CanCheckBorrowing(View())
      modifies this`tasks, this`slots, this`pc, this`channels, this`flags, this`sockets, this`keepers, this`released
      ensures Good() && Unmoved(old(View()), View())
      ensures pc == if over then ReleasingRuntime(old(pc).loop) else BorrowWaiting(old(pc).loop, true)
    {
      Others();
      ghost var s := View();
      over := CheckBorrowing();
      CheckBorrowingUnmoved(s);
      UnmovedOn(old(View()), s, View());
    }

    method CheckBorrowingOrSleep(spurious: nat) returns (over: bool, left: nat)
      requires Good() && CanCheckBorrowing(View())
      modifies this`tasks, this`slots, this`pc, this`channels, this`flags, this`sockets, this`keepers, this`released
      ensures Good() && Unmoved(old(View()), View())
      ensures pc == if over then ReleasingRuntime(old(pc).loop) else old(pc)
      ensures !over ==> |Remaining(tasks)| + left < old(|Remaining(tasks)|) + spurious
    {
      over := CheckBorrowingNext();
      left := spurious;
      if !over {
        left := SleepSince(old(View()), spurious);
      }
    }

    /** `Tasks::wait_borrowing`: it ends. */
    method WaitBorrowing(spurious: nat)
      requires Good() && CanCheckBorrowing(View())
      modifies this`tasks, this`slots, this`pc, this`channels, this`flags, this`sockets, this`keepers, this`released
      ensures Good() && Unmoved(old(View()), View()) && pc == ReleasingRuntime(old(pc).loop)
    {
      ghost var start := View();
      var left := spurious;
      var over := false;
      while !over
        invariant Good() && Unmoved(start, View())
        invariant pc == if over then ReleasingRuntime(start.p.pc.loop) else start.p.pc
        decreases !over, |Remaining(tasks)| + left
      {
        ghost var s := View();
        over, left := CheckBorrowingOrSleep(left);
        UnmovedOn(start, s, View());
      }
    }

    /** `runtime.take()`, then `Tasks::release`. */
    method Release()
      requires Good() && CanRelease(View())
      modifies this`keepers, this`pc
      ensures Good() && View() == DoRelease(old(View()))
    {
      var k := keepers[pc.loop];
      var dropped: Option<LoopId> := None;
      if k.runtime.Some? {
        if k.tasks.running == 0 {
          dropped := k.runtime;
          k := k.(runtime := None);
        } else {
          k := Keeper(k.tasks.(release := k.runtime), None);
        }
      }
      keepers := keepers[pc.loop := k];
      pc := Dropping(pc.loop, dropped);
      ReleaseGoes(reached, old(View()));
    }

    method DropRuntime()
      requires Good() && CanDropRuntime(View())
      modifies this`released, this`pc
      ensures Good() && View() == DoDropRuntime(old(View()))
    {
      released := released + multiset{pc.runtime.value};
      pc := Dropping(pc.loop, None);
      DropRuntimeGoes(reached, old(View()));
    }

    /** The end of `shutdown`: the loop is dropped, its suspensions and its receiver with it. */
    method DropLoop()
      requires Good() && CanDropLoop(View())
      modifies this`suspensions, this`channels, this`abandoned, this`pc
      ensures Good() && View() == DoDropLoop(old(View()))
    {
      var l := pc.loop;
      abandoned := abandoned + suspensions[l].Keys;
      suspensions := suspensions[l := NOBODY];
      channels := channels[l := channels[l].(receiving := false)];
      pc := Idle;
      DropLoopGoes(reached, old(View()));
    }

    method ReleaseNext(ghost start: State)
      requires Good() && CanRelease(View()) && Unmoved(start, View())
      modifies this`tasks, this`slots, this`pc, this`channels, this`flags, this`sockets, this`keepers, this`released
      ensures Good() && Unmoved(start, View()) && pc.Dropping? && pc.loop == old(pc).loop
    {
      OthersSince(start);
      ghost var s := View();
      Release();
      ReleaseUnmoved(s);
      UnmovedOn(start, s, View());
    }

    method DropRuntimeNext(ghost start: State)
      requires Good() && pc.Dropping? && Unmoved(start, View())
      modifies this`tasks, this`slots, this`pc, this`channels, this`flags, this`sockets, this`keepers, this`released
      ensures Good() && Unmoved(start, View()) && pc == Dropping(old(pc).loop, None)
    {
      OthersSince(start);
      if pc.runtime.Some? {
        ghost var s := View();
        DropRuntime();
        DropRuntimeUnmoved(s);
        UnmovedOn(start, s, View());
      }
    }

    method WaitAndTake(spurious: nat)
      requires Good() && CanCheckBorrowing(View())
      modifies this`tasks, this`slots, this`pc, this`channels, this`flags, this`sockets, this`keepers, this`released
      ensures Good() && Unmoved(old(View()), View()) && pc.Dropping? && pc.loop == old(pc).loop
    {
      WaitBorrowing(spurious);
      ReleaseNext(old(View()));
    }

    /** `shutdown`, once the loop is taken: up to the drop of the loop. */
    method WaitAndRelease(spurious: nat)
      requires Good() && CanCheckBorrowing(View())
      modifies this`tasks, this`slots, this`pc, this`channels, this`flags, this`sockets, this`keepers, this`released
      ensures Good() && Unmoved(old(View()), View()) && pc == Dropping(old(pc).loop, None)
    {
      WaitAndTake(spurious);
      DropRuntimeNext(old(View()));
      OthersSince(old(View()));
    }

    /** EVENTLOOP is taken, and `check_owned`. */
    method TakeLoop() returns (owned: Option<LoopId>)
      requires Good() && pc.Idle?
      modifies this`current, this`pc
      ensures Good() && View() == DoShutdown(old(View()))
      ensures owned == if old(Usable(View().p)) then old(current) else None
    {
      owned := if Usable(View().p) then current else None;
      current := None;
      if owned.Some? {
        pc := BorrowWaiting(owned.value, false);
      }
      ShutdownGoes(reached, old(View()));
    }

    lemma NothingBorrowed(l: LoopId)
      requires Good() && ShutDown(View().p, l)
      ensures forall id | id in calls && calls[id].loop == l && calls[id].borrowing ::
          id in tasks && Sent(tasks[id].phase) && id in slots && slots[id] != Running
    {
      assert Inv(View());
      forall id | id in calls && calls[id].loop == l && calls[id].borrowing
        ensures id in tasks && Sent(tasks[id].phase) && id in slots && slots[id] != Running
      {
        NoFutureBorrows(View(), id);
      }
    }

    lemma RuntimeLetGo(l: LoopId)
      requires Good() && ShutDown(View().p, l)
      ensures LetsGo(View().p, l)
    {
      assert Inv(View());
      assert l in Own(pid, loops);
    }

    /** `shutdown`: it ends, with no future left that borrows from a caller; an inherited loop is only forgotten. */
    method Shutdown(spurious: nat)
      requires Good() && pc.Idle?
      modifies this
      ensures Good()
      ensures if old(Usable(View().p)) then Dropped(old(View()), View(), old(current.value))
              else View() == old(View().(p := View().p.(current := None)))
      ensures old(Usable(View().p)) ==>
          forall id | id in calls && calls[id].loop == old(current.value) && calls[id].borrowing ::
            id in tasks && Sent(tasks[id].phase) && id in slots && slots[id] != Running
      ensures old(Usable(View().p)) ==> LetsGo(View().p, old(current.value))
    {
      var owned := TakeLoop();
      if owned == None {
        return;
      }
      ghost var s := View();
      WaitAndRelease(spurious);
      UnmovedPc(s, View(), Idle);
      DropsLoop(old(View()), View());
      DropLoop();
      NothingBorrowed(owned.value);
      RuntimeLetGo(owned.value);
    }

    // ----- `spawn` and `suspend`

    /** The ID is drawn, and the caller registered. */
    method Register(f: Fiber, borrowing: bool)
      requires Usable(View().p)
      modifies this`nextId, this`suspensions, this`calls, this`tasks, this`slots, this`callers, this`pc
      ensures var id, l := old(nextId), current.value;
        && nextId == id + 1 && pc == Registered(id)
        && suspensions == old(suspensions[l := suspensions[l][id := f]])
        && calls == old(calls)[id := Call(l, borrowing, f)] && tasks == old(tasks)[id := Task(Unstarted, None)]
        && slots == old(slots)[id := Running] && callers == old(callers)[id := Spawning]
    {
      var id, l := nextId, current.value;
      nextId := nextId + 1;
      suspensions := suspensions[l := suspensions[l][id := f]];
      calls, tasks := calls[id := Call(l, borrowing, f)], tasks[id := Task(Unstarted, None)];
      slots, callers := slots[id := Running], callers[id := Spawning];
      pc := Registered(id);
    }

    /** One step. */
    method RegisterNow(f: Fiber, borrowing: bool)
      requires Good() && CanSpawn(View(), f) && Usable(View().p)
      modifies this`nextId, this`suspensions, this`calls, this`tasks, this`slots, this`callers, this`pc
      ensures Good() && View() == DoSpawn(old(View()), f, borrowing)
    {
      Register(f, borrowing);
      SpawnGoes(reached, old(View()), View(), f, borrowing);
    }

    /** `Tasks::start`. */
    method Start()
      requires Good() && CanStart(View())
      modifies this`tasks, this`keepers, this`pc
      ensures Good() && View() == DoStart(old(View()))
    {
      var id, l := pc.id, calls[pc.id].loop;
      keepers := keepers[l := keepers[l].(tasks := AfterStart(keepers[l].tasks, calls[id].borrowing))];
      tasks := tasks[id := tasks[id].(phase := Unlaunched)];
      pc := Started(id);
      StartGoes(reached, old(View()));
    }

    method StartNext()
      requires Good() && CanStart(View())
      modifies this`tasks, this`slots, this`pc, this`channels, this`flags, this`sockets, this`keepers, this`released
      ensures Good() && SameMemory(old(View().p), View().p) && SameKeys(old(View()), View()) && pc == Started(old(pc).id)
    {
      Others();
      Start();
    }

    /** The task is handed to Tokio. */
    method Launch()
      requires Good() && CanLaunch(View())
      modifies this`tasks, this`pc
      ensures Good() && View() == DoLaunch(old(View()))
    {
      tasks := tasks[pc.id := tasks[pc.id].(phase := Polling)];
      pc := Suspending(pc.id);
      LaunchGoes(reached, old(View()));
    }

    method LaunchNext()
      requires Good() && CanLaunch(View())
      modifies this`tasks, this`slots, this`pc, this`channels, this`flags, this`sockets, this`keepers, this`released
      ensures Good() && SameMemory(old(View().p), View().p) && SameKeys(old(View()), View()) && pc == Suspending(old(pc).id)
    {
      Others();
      Launch();
    }

    /** `spawn`: registers the caller under a new ID before its task can send it, once `got` its suspension. */
    method Spawn(f: Fiber, borrowing: bool, got: bool) returns (id: Option<Id>, refused: Option<Refusal>)
      requires Good() && CanSpawn(View(), f)
      modifies this
      ensures Good()
      ensures refused == var r := old(Refuses(current, loops, pid)); if r == None && !got then Some(Unsuspendable) else r
      ensures refused.Some? ==> id == None && View() == old(View())
      ensures refused == None ==> id == Some(old(nextId)) && Spawned(old(View()), View(), f, borrowing)
    {
      UsableHere();
      id, refused := None, Refuses(current, loops, pid);
      if refused == None && !got {
        refused := Some(Unsuspendable);
      }
      if refused == None {
        id := Some(nextId);
        RegisterNow(f, borrowing);
        StartNext();
        LaunchNext();
      }
    }

    /** `suspensions.remove(&id)`, in the loop of EVENTLOOP. */
    method Forget(id: Id)
      modifies this`suspensions, this`unregistered
      ensures !old(Has(View().p, id)) ==> suspensions == old(suspensions) && unregistered == old(unregistered)
      ensures old(Has(View().p, id)) ==>
          && suspensions == old(suspensions[current.value := suspensions[current.value] - {id}])
          && unregistered == old(unregistered) + {id}
    {
      if Has(View().p, id) {
        suspensions := suspensions[current.value := suspensions[current.value] - {id}];
        unregistered := unregistered + {id};
      }
    }

    /** The end of `suspend`, without a resumption: the caller unregisters itself. */
    method Unregister()
      requires Good() && CanUnregister(View())
      modifies this`suspensions, this`unregistered, this`pc
      ensures Good() && View() == DoUnregister(old(View()))
    {
      Forget(pc.id);
      pc := Unregistered(pc.id, pc.how);
      UnregisterGoes(reached, old(View()));
    }

    /** Back in `suspend_on` or `try_suspend_on`. */
    method Return()
      requires Good() && CanReturn(View())
      modifies this`callers, this`pc
      ensures Good() && View() == DoReturn(old(View()))
    {
      var id := pc.id;
      var forked := loops[calls[id].loop].pid != pid;
      callers := callers[id := AfterSuspend(pc.how, calls[id].borrowing, forked)];
      pc := if callers[id].Left? then Idle else SlotWaiting(id, false);
      ReturnGoes(reached, old(View()));
    }

    /** What is known of a caller that was not resumed. */
    lemma Unwinds()
      requires Good() && CanUnregister(View())
      ensures KnownCall(View().p, pc.id) && calls[pc.id].loop in loops && KnownLoop(View().p, calls[pc.id].loop)
      ensures pc.how.Failing? ==> OwnCall(View().p, pc.id)   // a fork happens in PHP code: not before suspending
    {
      assert Inv(View());
    }

    /** Both, with tasks between them. */
    method UnregisterAndReturn()
      requires Good() && CanUnregister(View())
      modifies this
      ensures Good() && calls == old(calls) && loops == old(loops) && current == old(current)
      ensures var id := old(pc.id);
        && id in calls && calls[id].loop in loops && id in old(callers) && KnownCall(View().p, id)
        && (old(pc.how).Failing? ==> OwnCall(View().p, id))
        && callers == old(callers)[id := AfterSuspend(old(pc.how), calls[id].borrowing, loops[calls[id].loop].pid != pid)]
        && pc == (if callers[id].Left? then Idle else SlotWaiting(id, false)) && KnownLoop(View().p, calls[id].loop)
      ensures old(!Has(View().p, pc.id)) ==> suspensions == old(suspensions) && unregistered == old(unregistered)
      ensures old(Has(View().p, pc.id)) ==>
          && suspensions == old(suspensions[current.value := suspensions[current.value] - {pc.id}])
          && unregistered == old(unregistered + {pc.id})
    {
      Unwinds();
      Unregister();
      Others();
      Return();
    }

    /** A caller that was not resumed leaves. `suspend_on` leaves with the result of its future, which was dropped, or
        without waiting, interrupted in a process forked since; `try_suspend_on` never waits. */
    method Unwind(spurious: nat) returns (blocked: bool)
      requires Good() && CanUnregister(View())
      modifies this
      ensures Good() && pc == Idle && calls == old(calls) && loops == old(loops) && current == old(current)
      ensures old(pc.id in calls && pc.id in callers)
      ensures old(!Has(View().p, pc.id)) ==> suspensions == old(suspensions) && unregistered == old(unregistered)
      ensures old(Has(View().p, pc.id)) ==>
          && suspensions == old(suspensions[current.value := suspensions[current.value] - {pc.id}])
          && unregistered == old(unregistered + {pc.id})
      ensures Departs(old(View().p), View().p, old(pc.id), old(pc.how), blocked) && Unlisted(View().p, old(pc.id))
    {
      blocked := false;
      UnregisterAndReturn();
      if pc.SlotWaiting? {
        var value;
        value, blocked := WaitSlot(spurious);
      }
    }

    // ----- PHP code

    method AddFields(l: LoopId, loop: Loop)
      modifies this`loops, this`suspensions, this`channels, this`flags, this`keepers, this`sockets
      ensures loops == old(loops)[l := loop] && suspensions == old(suspensions)[l := NOBODY]
      ensures channels == old(channels)[l := Channel([], true, [])] && flags == old(flags)[l := Flag(false, 0)]
      ensures keepers == old(keepers)[l := Keeper(NO_TASKS, if loop.ownsRuntime then Some(l) else None)]
      ensures sockets == old(sockets)[loop.socket := 0]
    {
      loops, suspensions := loops[l := loop], suspensions[l := NOBODY];
      channels, flags := channels[l := Channel([], true, [])], flags[l := Flag(false, 0)];
      keepers := keepers[l := Keeper(NO_TASKS, if loop.ownsRuntime then Some(l) else None)];
      sockets := sockets[loop.socket := 0];
    }

    method AddLoop(l: LoopId, loop: Loop, shared: Option<Pid>)
      modifies this`loops, this`current, this`suspensions, this`channels, this`flags, this`keepers, this`sockets
      modifies this`sharedRuntime
      ensures Adds(old(View()), View(), l, loop, shared)
    {
      AddFields(l, loop);
      current, sharedRuntime := Some(l), shared;
    }

    /** `init`, or `init_with`: the new loop, unless there is one, or the shared runtime is that of another process. */
    method Initialize(owned: bool, l: LoopId, k: Sock, workers: nat, capacity: nat) returns (refused: Option<Refusal>)
      requires Good() && CanInit(View(), l, k, workers, capacity)
      modifies this
      ensures Good()
      ensures View() == if old(Initializes(View().p, owned)) then DoInit(old(View()), owned, l, k, workers, capacity)
                        else old(View())
      ensures old(current).Some? ==> View() == old(View()) && refused == old(Refuses(current, loops, pid))
      ensures old(current) == None && !owned && old(sharedRuntime).Some? && old(sharedRuntime) != Some(pid) ==>
          View() == old(View()) && refused == Some(ForkedRuntime)
      ensures old(current) == None && (owned || old(sharedRuntime) == None || old(sharedRuntime) == Some(pid)) ==>
          && refused == None && Usable(View().p) && current == Some(l) && l in keepers
          && loops == old(loops)[l := Loop(pid, pid, owned, workers, k, capacity)]
          && keepers[l] == Keeper(NO_TASKS, if owned then Some(l) else None)
          && sharedRuntime == (if owned then old(sharedRuntime) else Some(pid))
    {
      if current.Some? {
        return Refuses(current, loops, pid);
      }
      if !owned && sharedRuntime.Some? && sharedRuntime != Some(pid) {
        return Some(ForkedRuntime);
      }
      var shared := if owned || sharedRuntime.Some? then sharedRuntime else Some(pid);
      AddLoop(l, Loop(pid, if owned then pid else shared.value, owned, workers, k, capacity), shared);
      InitGoes(reached, old(View()), View(), owned, l, k, workers, capacity);
      refused := None;
    }

    /** `suspension.suspend()`. */
    method Suspend(ok: bool)
      requires Good() && CanSuspend(View())
      modifies this`callers, this`pc
      ensures Good() && View() == DoSuspend(old(View()), ok)
    {
      callers := callers[pc.id := if ok then Suspended else Unwinding];
      pc := if ok then Idle else Unregistering(pc.id, Failing);
      SuspendGoes(reached, old(View()), ok);
    }

    /** `suspension.suspend()` returns. */
    method Continue(id: Id)
      requires Good() && CanContinue(View(), id)
      modifies this`callers, this`pc
      ensures Good() && View() == DoContinue(old(View()), id)
    {
      callers, pc := callers[id := Waiting(callers[id].wake)], SlotWaiting(id, false);
      ContinueGoes(reached, old(View()), id);
    }

    /** `suspension.suspend()` throws. */
    method Interrupt(id: Id, exit: bool)
      requires Good() && CanInterrupt(View(), id)
      modifies this`callers, this`pc
      ensures Good() && View() == DoInterrupt(old(View()), id, exit)
    {
      callers, pc := callers[id := Unwinding], Unregistering(id, if exit then Exiting else Throwing);
      InterruptGoes(reached, old(View()), id, exit);
    }

    /** `resume` is called on the suspension of `id`. */
    method ResumeCall(id: Id, target: Option<Id>)
      requires Good() && CanResume(View(), id, target)
      modifies this`toResume, this`callers
      ensures Good() && View() == DoResumeCall(old(View()), id, target)
    {
      toResume := toResume - {id};
      if target.Some? {
        callers := callers[target.value := Resumable(if target.value == id then Handed else Foreign)];
      }
      ResumeGoes(reached, old(View()), id, target);
    }

    method BecomeLoops(p: Proc)
      modifies this`loops, this`current, this`suspensions, this`channels, this`flags, this`keepers
      ensures loops == p.loops && current == p.current && suspensions == p.suspensions
      ensures channels == p.channels && flags == p.flags && keepers == p.keepers
    {
      loops, current, suspensions := p.loops, p.current, p.suspensions;
      channels, flags, keepers := p.channels, p.flags, p.keepers;
    }

    method BecomeCalls(p: Proc)
      modifies this`nextId, this`calls, this`tasks, this`slots, this`callers
      ensures nextId == p.nextId && calls == p.calls && tasks == p.tasks && slots == p.slots && callers == p.callers
    {
      nextId, calls, tasks, slots, callers := p.nextId, p.calls, p.tasks, p.slots, p.callers;
    }

    method BecomeLists(p: Proc)
      modifies this`toResume, this`collected, this`unregistered, this`abandoned, this`released
      ensures toResume == p.toResume && collected == p.collected
      ensures unregistered == p.unregistered && abandoned == p.abandoned && released == p.released
    {
      toResume, collected, unregistered := p.toResume, p.collected, p.unregistered;
      abandoned, released := p.abandoned, p.released;
    }

    method Become(s: State)
      requires s.p.pid == pid && s.p.order == DrainFirst
      modifies this
      ensures View() == s
    {
      BecomeLoops(s.p);
      BecomeCalls(s.p);
      BecomeLists(s.p);
      pc, sharedRuntime, sockets := s.p.pc, s.p.sharedRuntime, s.sockets;
    }

    /** Any step at all. */
    method Perform(step: Step)
      requires Good() && Enabled(View(), step)
      modifies this
      ensures Good() && View() == Apply(old(View()), step)
    {
      assert Inv(View());
      SameIdentity(View(), step);
      Goes(reached, View(), step);
      Become(Apply(View(), step));
    }

    method AnyStep(mine: set<Id>)
      requires Good() && mine <= toResume
      modifies this
      ensures Good() && Later(old(View()), View()) && mine <= toResume
    {
      var step: Step := *;
      LaterHere(View());
      if Enabled(View(), step) && !(step.ResumeCall? && step.id in mine) {
        assert Inv(View());
        StepLater(View(), step);
        MineStay(View(), step, mine);
        Perform(step);
      }
    }

    /** PHP code runs elsewhere, other calls included: any steps at all, but the `resume` calls for `mine`. */
    method Elsewhere(fuel: nat, mine: set<Id>)
      requires Good() && mine <= toResume
      modifies this
      ensures Good() && Later(old(View()), View()) && mine <= toResume && (fuel == 0 ==> View() == old(View()))
    {
      var left := fuel;
      LaterHere(View());
      while left > 0
        invariant Good() && Later(old(View()), View()) && mine <= toResume && left <= fuel
        invariant fuel == 0 ==> View() == old(View())
      {
        ghost var s := View();
        AnyStep(mine);
        LaterOn(old(View()), s, View());
        left := left - 1;
      }
    }

    // ----- `resume`

    lemma CallThere(id: Id)
      requires Good() && id in toResume
      ensures KnownCall(View().p, id)
    {
      assert Inv(View());
    }

    lemma Settles(id: Id, target: Option<Id>)
      requires Good() && CanResume(View(), id, target)
      ensures id in DoResumeCall(View(), id, target).p.callers && Settled(DoResumeCall(View(), id, target).p.callers[id])
      ensures Later(View(), DoResumeCall(View(), id, target))
    {
      assert Inv(View());
      ResumeSettles(View(), id, target);
    }

    lemma CallKnown(id: Id)
      requires Good() && id in calls
      ensures KnownCall(View().p, id)
    {
      assert Inv(View());
    }

    /** The `resume` call for `id`: it makes `target`, the call that its fiber is suspended in, resumable; without one, it
        throws. */
    method ResumeNext(engine: Engine, id: Id) returns (thrown: Option<Thrown>, target: Option<Id>)
      requires Good() && pc.Idle? && id in toResume && engine.pending == None
      modifies this`toResume, this`callers, engine
      ensures Good() && Later(old(View()), View()) && pc == old(pc)
      ensures CanResume(old(View()), id, target) && View() == DoResumeCall(old(View()), id, target)
      ensures if target == None then thrown.Some?
              else callers == old(callers)[target.value := Resumable(if target.value == id then Handed else Foreign)]
      ensures engine.called == old(engine.called) + [id] && engine.outcomes == old(engine.outcomes) + [thrown]
      ensures engine.pending == thrown && id in callers && Settled(callers[id]) && OnlyResumed(old(View()), View(), {id})
    {
      CallThere(id);
      target := None;
      if exists t :: t in calls && t in callers && calls[t].fiber == calls[id].fiber && callers[t].Suspended? {
        var t :| t in calls && t in callers && calls[t].fiber == calls[id].fiber && callers[t].Suspended?;
        CallKnown(t);
        target := Some(t);
      }
      Settles(id, target);
      ResumeCallOnly(View(), id, target);
      ResumeCall(id, target);
      thrown := *;
      if target == None && thrown == None {
        thrown := Some(0);
      }
      engine.TryResume(id, thrown);
    }

    /** One turn of the loop of `resume`; its call may run PHP code, which may not come back. */
    method ResumeTurn(engine: Engine, ready: seq<Id>, i: nat, fuel: nat) returns (back: bool, thrown: Option<Thrown>)
      requires Good() && pc.Idle? && Distinct(ready) && i < |ready| && ToCome(ready, i) <= toResume && engine.pending == None
      modifies this, engine
      ensures Good() && Later(old(View()), View()) && ToCome(ready, i + 1) <= toResume
      ensures back == pc.Idle? && (fuel == 0 ==> back && OnlyResumed(old(View()), View(), {ready[i]}))
      ensures engine.called == old(engine.called) + [ready[i]] && engine.outcomes == old(engine.outcomes) + [thrown]
      ensures engine.pending == None && ready[i] in callers && Settled(callers[ready[i]])
    {
      NextToCome(ready, i);
      var target;
      thrown, target := ResumeNext(engine, ready[i]);
      ghost var s := View();
      Elsewhere(fuel, ToCome(ready, i + 1));
      LaterOn(old(View()), s, View());
      back := pc.Idle?;
      thrown := engine.TakeException();
    }

    /** The next turn, after those from `from` on, since `start`, which threw `before`. */
    method ResumeMore(engine: Engine, ready: seq<Id>, from: nat, i: nat, fuel: nat, ghost start: State, ghost calls0: seq<Id>,
                      ghost threw0: seq<Option<Thrown>>, ghost before: seq<Option<Thrown>>)
      returns (back: bool, thrown: Option<Thrown>)
      requires Good() && pc.Idle? && Distinct(ready) && from <= i < |ready| && ToCome(ready, i) <= toResume
      requires engine.Made(calls0, threw0, ready[from..i], before) && AllSettled(callers, ready, from, i) && Later(start, View())
      requires fuel == 0 ==> OnlyResumed(start, View(), Among(ready, from, i))
      modifies this, engine
      ensures Good() && Later(start, View()) && ToCome(ready, i + 1) <= toResume && back == pc.Idle?
      ensures fuel == 0 ==> back && OnlyResumed(start, View(), Among(ready, from, i + 1))
      ensures engine.Made(calls0, threw0, ready[from..i + 1], before + [thrown]) && AllSettled(callers, ready, from, i + 1)
      ensures First(before + [thrown]) == if First(before).Some? then First(before) else thrown
    {
      ghost var s := View();
      back, thrown := ResumeTurn(engine, ready, i, fuel);
      AllSettledLater(s, View(), ready, from, i);
      LaterOn(start, s, View());
      if fuel == 0 {
        OnlyResumedOn(start, s, View(), Among(ready, from, i), {ready[i]});
        AmongOne(ready, from, i);
      }
      OneMoreMade(calls0, threw0, ready, from, i, before, thrown);
      FirstOfMore(before, thrown);
    }

    /** The loop of `resume`, from `from` on. */
    method ResumeFrom(engine: Engine, ready: seq<Id>, from: nat, pending: Option<Thrown>, fuel: nat)
      returns (back: bool, first: Option<Thrown>, ghost thrown: seq<Option<Thrown>>)
      requires Good() && pc.Idle? && Distinct(ready) && from <= |ready| && ToCome(ready, from) <= toResume
      requires engine.pending == None
      modifies this, engine
      ensures Good() && Later(old(View()), View()) && engine.pending == None && back == pc.Idle?
      ensures fuel == 0 ==> back && OnlyResumed(old(View()), View(), Among(ready, from, |ready|))
      ensures back ==> engine.Made(old(engine.called), old(engine.outcomes), ready[from..], thrown)
      ensures back ==> first == (if pending.Some? then pending else First(thrown)) && AllSettled(callers, ready, from, |ready|)
    {
      back, first, thrown := true, pending, [];
      var i := from;
      LaterHere(View());
      OnlyResumedHere(View());
      assert Among(ready, from, from) == {};
      while i < |ready|
        invariant from <= i <= |ready| && Good() && pc.Idle? && Later(old(View()), View()) && back
        invariant ToCome(ready, i) <= toResume && AllSettled(callers, ready, from, i)
        invariant engine.Made(old(engine.called), old(engine.outcomes), ready[from..i], thrown)
        invariant first == if pending.Some? then pending else First(thrown)
        invariant fuel == 0 ==> OnlyResumed(old(View()), View(), Among(ready, from, i))
      {
        var exception: Option<Thrown>;
        back, exception :=
          ResumeMore(engine, ready, from, i, fuel, old(View()), old(engine.called), old(engine.outcomes), thrown);
        if !back {
          return;
        }
        if first == None {
          first := exception;
        }
        thrown := thrown + [exception];
        i := i + 1;
      }
    }

    /** `resume`: each caller of the ready list gets one call, in order, whichever of them throw; the first exception stays
        pending. (Were one pending before, it would take the place of the first call.) It comes back once PHP code does. */
    method Resume(engine: Engine, ready: seq<Id>, fuel: nat) returns (back: bool, ghost thrown: seq<Option<Thrown>>)
      requires Good() && pc.Idle? && Distinct(ready) && ToCome(ready, 0) <= toResume
      modifies this, engine
      ensures Good() && Later(old(View()), View()) && back == pc.Idle?
      ensures fuel == 0 ==> back && OnlyResumed(old(View()), View(), Among(ready, Skipped(old(engine.pending), ready), |ready|))
      ensures back ==> engine.Resumed(old(engine.pending), old(engine.called), old(engine.outcomes), ready, thrown)
      ensures back ==> AllSettled(callers, ready, Skipped(old(engine.pending), ready), |ready|)
    {
      var first: Option<Thrown> := None;
      var from := 0;
      if engine.pending.Some? && ready != [] {
        engine.TryResume(ready[0], None);
        first := engine.TakeException();
        from := 1;
        NextToCome(ready, 0);
      }
      if engine.pending.Some? {
        LaterHere(View());
        OnlyResumedHere(View());
        assert Among(ready, 0, 0) == {};
        return true, [];
      }
      back, first, thrown := ResumeFrom(engine, ready, from, first, fuel);
      if back && first.Some? {
        engine.Rethrow(first.value);
      }
    }

    /** `wakeup`: it collects whoever is registered and has its ID in the channel, then, from `collected` on, resumes them. */
    method Wakeup(engine: Engine, fuel: nat)
      returns (back: bool, refused: Option<Refusal>,
               ghost collected: State, ghost ids: seq<Id>, ghost thrown: seq<Option<Thrown>>)
      requires Good() && pc.Idle?
      modifies this, engine
      ensures Good() && back == pc.Idle? && (fuel == 0 ==> back)
      ensures refused == if old(current) == None then Some(Uninitialized) else None
      ensures old(Refuses(current, loops, pid)).Some? ==>
          && back && View() == old(View()) && engine.called == old(engine.called) && engine.outcomes == old(engine.outcomes)
          && engine.pending == old(engine.pending)
      ensures old(Refuses(current, loops, pid)) == None ==>
          var l := old(current.value);
          && l in old(View()).p.channels && l in old(View()).p.suspensions
          && reached(collected) && Collected(old(View()), collected, l, ids) && old(View()).p.channels[l].queue <= ids
          && var ready := Sift(old(View()).p.suspensions[l], ids);
             && (fuel == 0 ==> OnlyResumed(collected, View(), Among(ready, Skipped(old(engine.pending), ready), |ready|)))
             && (back ==> engine.Resumed(old(engine.pending), old(engine.called), old(engine.outcomes), ready, thrown))
             && (back && old(engine.pending) == None ==> AllResumed(old(View()), l, callers))
    {
      UsableHere();
      back, collected, ids, thrown := true, View(), [], [];
      refused := if current == None then Some(Uninitialized) else None;
      if !Usable(View().p) {
        return;
      }
      var ready;
      ready, ids := WakeupReady();
      collected := View();
      CollectedToResume(old(View()), collected, old(current.value), ids);
      back, thrown := Resume(engine, ready, fuel);
      if back && old(engine.pending) == None {
        ResumedAll(old(View()), collected, old(current.value), ids, callers);
      }
    }

    /** `drain`: it waits, up to `waited`, until nobody is registered, or the deadline passed with no ID left; then it collects,
        and resumes, as `wakeup` does. */
    method Drain(engine: Engine, fuel: nat)
      returns (back: bool, late: bool, ghost waited: State, ghost first: seq<Id>,
               ghost collected: State, ghost ids: seq<Id>, ghost thrown: seq<Option<Thrown>>)
      requires Good() && pc.Idle?
      modifies this, engine
      ensures Good() && back == pc.Idle? && (fuel == 0 ==> back)
      ensures old(Refuses(current, loops, pid)).Some? ==>
          && back && View() == old(View()) && engine.called == old(engine.called) && engine.outcomes == old(engine.outcomes)
          && engine.pending == old(engine.pending)
      ensures old(Refuses(current, loops, pid)) == None ==>
          var l := old(current.value);
          && l in old(View()).p.channels && l in old(View()).p.suspensions
          && reached(waited) && Gathered(old(View()), waited, l, first) && Exhausted(waited, l, late)
          && waited.p.pc == Draining(Sift(old(View()).p.suspensions[l], first)) && Wanted(old(View()).p.suspensions[l], first)
          && reached(collected) && Collected(old(View()), collected, l, ids) && first <= ids
          && old(View()).p.channels[l].queue <= ids
          && var ready := Sift(old(View()).p.suspensions[l], ids);
             && (fuel == 0 ==> OnlyResumed(collected, View(), Among(ready, Skipped(old(engine.pending), ready), |ready|)))
             && (back ==> engine.Resumed(old(engine.pending), old(engine.called), old(engine.outcomes), ready, thrown))
             && (back && old(engine.pending) == None ==> AllResumed(old(View()), l, callers))
    {
      UsableHere();
      back, late, waited, first, collected, ids, thrown := true, false, View(), [], View(), [], [];
      if !Usable(View().p) {
        return;
      }
      var ready;
      late, ready, ids, waited, first := DrainReady();
      collected := View();
      CollectedToResume(old(View()), collected, old(current.value), ids);
      back, thrown := Resume(engine, ready, fuel);
      if back && old(engine.pending) == None {
        ResumedAll(old(View()), collected, old(current.value), ids, callers);
      }
    }

    // ----- `suspend_on` and `try_suspend_on`

    lemma OwnHere(id: Id)
      requires Good() && id in calls && calls[id].loop in loops && loops[calls[id].loop].pid == pid
      ensures OwnCall(View().p, id) && (pc == Suspending(id) ==> CanSuspend(View()))
    {
      assert Inv(View());
    }

    /** The caller could not suspend, or was interrupted. */
    method LeaveUnresumed(id: Id, spurious: nat)
      requires Good() && CanUnregister(View()) && pc.id == id && OwnCall(View().p, id)
      modifies this
      ensures Good() && pc.Idle? && calls == old(calls) && Finished(View().p, id, Some(old(pc.how))) && Unlisted(View().p, id)
    {
      var blocked := Unwind(spurious);
      OwnHere(id);
    }

    /** The caller was resumed. */
    method LeaveResumed(id: Id, spurious: nat)
      requires Good() && CanContinue(View(), id) && OwnCall(View().p, id)
      modifies this
      ensures Good() && pc.Idle? && calls == old(calls) && Finished(View().p, id, None)
    {
      Continue(id);
      var value, blocked := WaitSlot(spurious);
      OwnHere(id);
    }

    /** `suspend`, and what follows: while the caller is suspended, PHP code runs elsewhere; it may not come back. */
    method Stay(id: Id, ok: bool, interrupted: bool, exit: bool, fuel: nat, spurious: nat) returns (left: bool)
      requires Good() && CanSuspend(View()) && pc.id == id && OwnCall(View().p, id)
      modifies this
      ensures Good()
      ensures !ok || (fuel == 0 && interrupted) ==> left
      ensures ok && fuel == 0 && !interrupted ==> !left
      ensures left ==> pc.Idle? && Finished(View().p, id, Way(ok, interrupted, exit)) && calls[id] == old(calls[id])
      ensures left && Way(ok, interrupted, exit).Some? ==> Unlisted(View().p, id)
      ensures !left && pc.Idle? ==> StillAway(callers, id, interrupted)
    {
      Suspend(ok);
      if !ok {
        LeaveUnresumed(id, spurious);
        return true;
      }
      Elsewhere(fuel, {});
      left := pc.Idle? && OffStack(callers[id]) && (interrupted || callers[id].Resumable?);
      if left && interrupted {
        Interrupt(id, exit);
        LeaveUnresumed(id, spurious);
      } else if left {
        LeaveResumed(id, spurious);
      }
    }

    /** A whole call of `suspend_on` or `try_suspend_on`: once PHP code comes back to it, the caller leaves, unless it is still
        suspended, without being interrupted. */
    method SuspendOn(f: Fiber, borrowing: bool, got: bool, ok: bool, interrupted: bool, exit: bool, fuel: nat, spurious: nat)
      returns (id: Option<Id>, refused: Option<Refusal>, left: bool)
      requires Good() && CanSpawn(View(), f)
      modifies this
      ensures Good()
      ensures refused == var r := old(Refuses(current, loops, pid)); if r == None && !got then Some(Unsuspendable) else r
      ensures refused.Some? ==> id == None && !left && View() == old(View())
      ensures refused == None ==>
          && id == Some(old(nextId)) && (!ok || (fuel == 0 && interrupted) ==> left)
          && (ok && fuel == 0 && !interrupted ==> !left)
          && (!left && pc.Idle? ==> StillAway(callers, id.value, interrupted))
      ensures left ==>
          && id.Some? && pc.Idle? && Finished(View().p, id.value, Way(ok, interrupted, exit))
          && calls[id.value].borrowing == borrowing
          && (Way(ok, interrupted, exit).Some? ==> Unlisted(View().p, id.value))
    {
      left := false;
      id, refused := Spawn(f, borrowing, got);
      if id.Some? {
        OwnHere(id.value);
        left := Stay(id.value, ok, interrupted, exit, fuel, spurious);
      }
    }
  }
}
