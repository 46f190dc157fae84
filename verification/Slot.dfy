/** `Slot<T>` (src/event_loop.rs): the result of a future, handed over to the PHP thread. */
module Slots {
  import opened Basics

  datatype SlotState = Running | Completed(value: Value) | Panicked | Taken

  /** The critical section of `set`. */
  function AfterSet(value: Value): SlotState {
    Completed(value)
  }

  /** The critical section of `finish`: a future that is over without a result panicked. */
  function AfterFinish(state: SlotState): SlotState {
    if state == Running then Panicked else state
  }

  /** What `wait` returns when it finds the slot over: the value, moved out, or None. */
  function Result(state: SlotState): Option<Value> {
    if state.Completed? then Some(state.value) else None
  }

  class Slot {
    var state: SlotState
    /** Whether the PHP thread sleeps on the condition variable. */
    var asleep: bool

    constructor ()
      ensures state == Running && !asleep
    {
      state, asleep := Running, false;
    }

    method StoreValue(value: Value)
      modifies this`state
      ensures state == AfterSet(value)
    {
      state := Completed(value);
    }

    method NotifyAll()
      modifies this`asleep
      ensures !asleep
    {
      asleep := false;
    }

    /** The lock is released before the sleeper is notified: two atomic sections. */
    method Set(value: Value)
      modifies this
      ensures state == AfterSet(value) && !asleep
    {
      StoreValue(value);
      NotifyAll();
    }

    /** One atomic section: the sleeper is notified under the lock. */
    method Finish()
      modifies this
      ensures state == AfterFinish(old(state)) && !asleep
      ensures state != Running
    {
      if state == Running {
        state := Panicked;
      }
      asleep := false;
    }

    /** One turn of the loop of `wait`, under the lock: goes to sleep on a running slot, else takes the result. */
    method Check() returns (over: bool, value: Option<Value>)
      requires !asleep
      modifies this
      ensures over == (old(state) != Running) == !asleep
      ensures over ==> state == Taken && value == Result(old(state))
      ensures !over ==> state == Running && value == None
    {
      if state == Running {
        asleep := true;
        return false, None;
      }
      over := true;
      match state {
        case Completed(v) => value := Some(v);
        case _ => value := None;
      }
      state := Taken;
    }
  }
}
