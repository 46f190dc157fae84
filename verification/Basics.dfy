/** The vocabulary of the model, and facts about finite sets and sequences used to count. */
module Basics {

  datatype Option<+T> = None | Some(value: T)

  /** The ID of a call of `suspend_on` or `try_suspend_on`, drawn from NEXT_ID. */
  type Id = int
  /** A PHP fiber: its suspension is the same object every time it is asked for. */
  type Fiber = int
  type Pid = int
  /** A connected socket pair, known to the kernel: forked processes share it. */
  type Sock = int
  /** A generation: one `EventLoop` value between `init` and `shutdown`. Also names the runtime it owns. */
  type LoopId = int
  /** What a future computes: opaque to the protocol. */
  type Value = int

  /** How a future ended. */
  datatype Outcome = Produced(value: Value) | Panic

  ghost predicate Distinct<T>(xs: seq<T>) {
    forall i, j :: 0 <= i < j < |xs| ==> xs[i] != xs[j]
  }

  lemma DistinctAppend<T>(xs: seq<T>, x: T)
    requires Distinct(xs) && x !in xs
    ensures Distinct(xs + [x])
  {
  }

  lemma SubsetSize<T>(a: set<T>, b: set<T>)
    requires a <= b
    ensures |a| <= |b|
    ensures a != b ==> |a| < |b|
  {
    assert b == a + (b - a);
    if a != b {
      assert b - a != {};
    }
  }

  lemma Element<T>(a: set<T>) returns (x: T)
    requires |a| > 0
    ensures x in a
  {
    x :| x in a;
  }
}
