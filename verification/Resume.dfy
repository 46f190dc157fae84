/** What `resume` (src/event_loop.rs) calls: PHP, which may throw. */
module Resuming {
  import opened Basics

  /** An exception. */
  type Thrown = int

  /** The first exception that a series of calls throws. */
  function First(throws: seq<Option<Thrown>>): Option<Thrown> {
    if throws == [] then None
    else
      var n := |throws| - 1;
      if First(throws[..n]).Some? then First(throws[..n]) else throws[n]
  }

  /** While an exception is pending, PHP runs nothing: it takes the place of the first call. */
  function Skipped(pending: Option<Thrown>, ready: seq<Id>): (n: nat)
    ensures n <= |ready|
  {
    if pending.Some? && ready != [] then 1 else 0
  }

  /** The part of the Zend engine that `resume` uses. */
  class Engine {
    var pending: Option<Thrown>
    /** The `resume` calls that PHP ran, by the IDs of the collected callers. */
    var called: seq<Id>
    /** What each of them threw. */
    var outcomes: seq<Option<Thrown>>

    /** The `resume` calls for `ready` were made in order, and threw `thrown`; what is pending since is what was before, or else
        the first exception that they threw. */
    ghost predicate Resumed(before: Option<Thrown>, calls: seq<Id>, threw: seq<Option<Thrown>>, ready: seq<Id>,
                            thrown: seq<Option<Thrown>>)
      reads this
    {
      && called == calls + ready[Skipped(before, ready)..] && |thrown| == |ready| - Skipped(before, ready)
      && outcomes == threw + thrown && pending == if before.Some? then before else First(thrown)
    }

    /** The calls for `done` were made, and threw `thrown`; each exception was taken. */
    ghost predicate Made(calls: seq<Id>, threw: seq<Option<Thrown>>, done: seq<Id>, thrown: seq<Option<Thrown>>)
      reads this
    {
      called == calls + done && outcomes == threw + thrown && |thrown| == |done| && pending == None
    }

    constructor ()
      ensures pending == None && called == [] && outcomes == []
    {
      pending, called, outcomes := None, [], [];
    }

    /** Calls `resume` on the suspension of a caller, which throws or not; PHP runs nothing while an exception is pending. */
    method TryResume(id: Id, throws: Option<Thrown>)
      modifies this
      ensures old(pending).None? ==>
          called == old(called) + [id] && outcomes == old(outcomes) + [throws] && pending == throws
      ensures old(pending).Some? ==> called == old(called) && outcomes == old(outcomes) && pending == old(pending)
    {
      if pending == None {
        called, outcomes := called + [id], outcomes + [throws];
        pending := throws;
      }
    }

    method TakeException() returns (exception: Option<Thrown>)
      modifies this`pending
      ensures exception == old(pending) && pending == None
    {
      exception := pending;
      pending := None;
    }

    method Rethrow(exception: Thrown)
      modifies this`pending
      ensures pending == Some(exception)
    {
      pending := Some(exception);
    }
  }

  lemma {:induction false} FirstIsFirst(throws: seq<Option<Thrown>>)
    ensures First(throws) == None <==> forall i | 0 <= i < |throws| :: throws[i] == None
    ensures First(throws).Some? ==>
        exists i | 0 <= i < |throws| :: throws[i] == First(throws) && forall j | 0 <= j < i :: throws[j] == None
  {
    if throws != [] {
      var n := |throws| - 1;
      FirstIsFirst(throws[..n]);
      assert throws == throws[..n] + [throws[n]];
      if First(throws[..n]).Some? {
        var i :| 0 <= i < n && throws[..n][i] == First(throws[..n]) && forall j | 0 <= j < i :: throws[..n][j] == None;
        assert throws[i] == First(throws) && forall j | 0 <= j < i :: throws[j] == None;
      } else if throws[n].Some? {
        assert throws[n] == First(throws) && forall j | 0 <= j < n :: throws[j] == None;
      }
    }
  }

  lemma FirstOfMore(throws: seq<Option<Thrown>>, last: Option<Thrown>)
    ensures First(throws + [last]) == if First(throws).Some? then First(throws) else last
  {
    assert (throws + [last])[..|throws|] == throws;
  }

  lemma OneMoreMade(calls: seq<Id>, threw: seq<Option<Thrown>>, ready: seq<Id>, from: nat, i: nat,
                    thrown: seq<Option<Thrown>>, last: Option<Thrown>)
    requires from <= i < |ready|
    ensures calls + ready[from..i] + [ready[i]] == calls + ready[from..i + 1]
    ensures threw + thrown + [last] == threw + (thrown + [last])
  {
    assert ready[from..i + 1] == ready[from..i] + [ready[i]];
  }
}
