/** `Tasks` and `Task` (src/event_loop.rs): the reference count that decides when borrowed memory may
    die, and when an owned runtime may be released. */
module TaskCounters {
  import opened Basics

  /** Integers, not naturals: that no subtraction underflows is a theorem. */
  datatype TasksState = TasksState(running: int, borrowing: int, release: Option<LoopId>)

  const NO_TASKS := TasksState(0, 0, None)

  function AfterStart(t: TasksState, borrowing: bool): TasksState {
    t.(running := t.running + 1, borrowing := t.borrowing + if borrowing then 1 else 0)
  }

  /** The critical section of `Task::drop`, and the runtime that the last task takes away. */
  function AfterEnd(t: TasksState, borrowing: bool): (TasksState, Option<LoopId>) {
    var t' := t.(running := t.running - 1, borrowing := t.borrowing - if borrowing then 1 else 0);
    if t'.running == 0 then (t'.(release := None), t.release) else (t', None)
  }

  /** The critical section of `release`: the runtime is dropped by the caller, or parked. */
  function AfterRelease(t: TasksState, runtime: LoopId): (TasksState, Option<LoopId>) {
    if t.running == 0 then (t, Some(runtime)) else (t.(release := Some(runtime)), None)
  }

  class Tasks {
    var running: int
    var borrowing: int
    var parked: Option<LoopId>
    /** Whether the PHP thread sleeps in `wait_borrowing`. */
    var asleep: bool

    ghost function View(): TasksState
      reads this
    {
      TasksState(running, borrowing, parked)
    }

    constructor ()
      ensures View() == NO_TASKS && !asleep
    {
      running, borrowing, parked, asleep := 0, 0, None, false;
    }

    method Start(borrows: bool)
      modifies this`running, this`borrowing
      ensures View() == AfterStart(old(View()), borrows)
    {
      running := running + 1;
      if borrows {
        borrowing := borrowing + 1;
      }
    }

    /** One turn of the loop of `wait_borrowing`, under the lock. */
    method CheckBorrowing() returns (ended: bool)
      requires !asleep
      modifies this`asleep
      ensures ended == (borrowing <= 0) == !asleep
    {
      ended := !(borrowing > 0);
      asleep := !ended;
    }

    method Release(runtime: LoopId) returns (dropped: Option<LoopId>)
      modifies this`parked
      ensures (View(), dropped) == AfterRelease(old(View()), runtime)
    {
      if running == 0 {
        dropped := Some(runtime);
      } else {
        parked := Some(runtime);
        dropped := None;
      }
    }

    /** `Task::drop`, up to the end of its critical section: it always notifies `wait_borrowing`. */
    method End(borrowed: bool) returns (taken: Option<LoopId>)
      modifies this
      ensures (View(), taken) == AfterEnd(old(View()), borrowed) && !asleep
    {
      running := running - 1;
      if borrowed {
        borrowing := borrowing - 1;
      }
      asleep := false;
      taken := None;
      if running == 0 {
        taken := parked;
        parked := None;
      }
    }
  }
}
