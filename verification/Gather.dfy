/** What `wakeup` and `drain` collect: one relation for both. */
module Gathering {
  import opened Basics

  /** The ready list of the received IDs: each that is still in the map, once. */
  function Sift(waiting: map<Id, Fiber>, ids: seq<Id>): seq<Id> {
    if ids == [] then []
    else
      var n := |ids| - 1;
      Sift(waiting, ids[..n]) + if ids[n] in waiting && ids[n] !in ids[..n] then [ids[n]] else []
  }

  /** What is left of the map. */
  function Remove(waiting: map<Id, Fiber>, ids: seq<Id>): map<Id, Fiber> {
    waiting - set id | id in ids
  }

  lemma {:induction false} SiftIsExact(waiting: map<Id, Fiber>, ids: seq<Id>)
    ensures forall id :: id in Sift(waiting, ids) <==> id in ids && id in waiting
    ensures Distinct(Sift(waiting, ids))
  {
    if ids != [] {
      var n := |ids| - 1;
      SiftIsExact(waiting, ids[..n]);
      assert ids == ids[..n] + [ids[n]];
      if ids[n] in waiting && ids[n] !in ids[..n] {
        DistinctAppend(Sift(waiting, ids[..n]), ids[n]);
      }
    }
  }

  /** In channel order. */
  lemma {:induction false} SiftInOrder(waiting: map<Id, Fiber>, ids: seq<Id>, more: seq<Id>)
    ensures Sift(waiting, ids) <= Sift(waiting, ids + more)
    decreases |more|
  {
    if more == [] {
      assert ids + more == ids;
    } else {
      var n := |more| - 1;
      SiftInOrder(waiting, ids, more[..n]);
      assert (ids + more)[..|ids| + n] == ids + more[..n];
    }
  }

  lemma {:induction false} DistinctSize(xs: seq<Id>)
    requires Distinct(xs)
    ensures |set x | x in xs| == |xs|
  {
    if xs == [] {
      assert (set x | x in xs) == {};
    } else {
      var n := |xs| - 1;
      DistinctSize(xs[..n]);
      assert xs == xs[..n] + [xs[n]];
      assert (set x | x in xs) == (set x | x in xs[..n]) + {xs[n]};
    }
  }

  lemma SplitSize(all: set<Id>, xs: seq<Id>, left: set<Id>)
    requires Distinct(xs) && left <= all && forall id | id in xs :: id in all
    requires forall id | id in all :: id in xs <==> id !in left
    ensures |xs| + |left| == |all|
  {
    DistinctSize(xs);
    var ready := set x | x in xs;
    assert forall x :: x in all <==> x in ready || x in left;
    assert all == ready + left && ready !! left;
  }

  /** Collecting loses no caller: it is in the ready list, once, or still in the map, and not both. */
  lemma SiftConserves(waiting: map<Id, Fiber>, ids: seq<Id>)
    ensures forall id | id in waiting :: id in Sift(waiting, ids) <==> id !in Remove(waiting, ids)
    ensures |Sift(waiting, ids)| + |Remove(waiting, ids).Keys| == |waiting.Keys|
  {
    SiftIsExact(waiting, ids);
    SplitSize(waiting.Keys, Sift(waiting, ids), Remove(waiting, ids).Keys);
  }

  lemma SiftOne(waiting: map<Id, Fiber>, ids: seq<Id>, id: Id)
    ensures Remove(waiting, ids + [id]) == Remove(waiting, ids) - {id}
    ensures Sift(waiting, ids + [id]) == Sift(waiting, ids) + if id in Remove(waiting, ids) then [id] else []
  {
    assert (ids + [id])[..|ids|] == ids;
  }

  /** Each ID was received while somebody was still waiting. */
  ghost predicate Wanted(waiting: map<Id, Fiber>, ids: seq<Id>) {
    forall k | 0 <= k < |ids| :: Remove(waiting, ids[..k]) != map[]
  }

  lemma WantedOne(waiting: map<Id, Fiber>, ids: seq<Id>, id: Id)
    requires Wanted(waiting, ids) && Remove(waiting, ids) != map[]
    ensures Wanted(waiting, ids + [id])
  {
    forall k | 0 <= k < |ids| + 1
      ensures Remove(waiting, (ids + [id])[..k]) != map[]
    {
      assert (ids + [id])[..k] == ids[..k];
      assert k == |ids| ==> ids[..k] == ids;
    }
  }
}
