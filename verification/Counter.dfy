/** internal/cli/breaker/counter.go: the window as a ring of pointers to buckets. */
module Counters {
  import W = Window
  import opened SpareSlotRing

  class StatisticalUnit {
    var Total: int
    var Success: int
    var Timeout: int
    var BusinessFailure: int
    var NetworkFailure: int

    constructor ()
      ensures Holds(multiset{})
    {
      Total, Success, Timeout, BusinessFailure, NetworkFailure := 0, 0, 0, 0, 0;
    }

    /** The five counters are those of exactly these results. */
    ghost predicate Holds(r: W.Results)
      reads this
    {
      && Total == |r|
      && Success == r[W.SUCCESS]
      && BusinessFailure == r[W.BUSINESS_FAILURE]
      && NetworkFailure == r[W.NETWORK_FAILURE]
      && Timeout == r[W.TIMEOUT]
    }

    /** The total is kept apart from the four counters and always is their sum. */
    lemma TotalIsSum(r: W.Results)
      requires Holds(r)
      ensures Total == Success + BusinessFailure + NetworkFailure + Timeout
    {
      W.FourKinds(r);
    }

    method Add(unit: StatisticalUnit, ghost mine: W.Results, ghost theirs: W.Results)
      requires Holds(mine) && unit.Holds(theirs)
      modifies this
      ensures Holds(if unit == this then mine + mine else mine + theirs)
    {
      Total := Total + unit.Total;
      Success := Success + unit.Success;
      BusinessFailure := BusinessFailure + unit.BusinessFailure;
      NetworkFailure := NetworkFailure + unit.NetworkFailure;
      Timeout := Timeout + unit.Timeout;
    }
  }

  class Counter {
    ghost var View: W.State
    ghost var Repr: set<object>

    var current: StatisticalUnit
    var units: CircularQueue<StatisticalUnit?>

    /** The bucket being filled is never one of the closed buckets, so filling it cannot change them. */
    ghost predicate Valid()
      reads this, Repr
    {
      && this in Repr && current in Repr && units in Repr && units.elements in Repr
      && units.Valid() && units.zero == null
      && |units.Contents| == |View.closed|
      && (forall i :: 0 <= i < |View.closed| ==>
            var unit := units.Contents[i];
            unit != null && unit in Repr && unit != current && unit.Holds(View.closed[i]))
      && current.Holds(View.current)
    }

    ghost function Capacity(): nat
      reads this, units
    {
      units.Limit
    }

    constructor (capacity: nat)
      ensures Valid() && fresh(Repr)
      ensures View == W.FRESH && Capacity() == capacity
    {
      current := new StatisticalUnit();
      units := new CircularQueue(capacity, null);
      View := W.FRESH;
      new;
      Repr := {this, current, units, units.elements};
    }

    method Reset()
      requires Valid()
      modifies Repr
      ensures Valid() && fresh(Repr - old(Repr)) && Capacity() == old(Capacity())
      ensures View == W.Apply(Capacity(), old(View), W.Reset)
    {
      current := new StatisticalUnit();
      units.Reset();
      View := W.Apply(Capacity(), View, W.Reset);
      Repr := Repr + {current};
    }

    method Flush()
      requires Valid()
      modifies Repr
      ensures Valid() && fresh(Repr - old(Repr)) && Capacity() == old(Capacity())
      ensures View == W.Apply(Capacity(), old(View), W.Flush)
    {
      var _ := units.Enqueue(current);
      current := new StatisticalUnit();
      View := W.Apply(Capacity(), View, W.Flush);
      Repr := Repr + {current};
    }

    method PushEmpty()
      requires Valid()
      modifies Repr
      ensures Valid() && fresh(Repr - old(Repr)) && Capacity() == old(Capacity())
      ensures View == W.Apply(Capacity(), old(View), W.PushEmpty)
    {
      var unit := new StatisticalUnit();
      var _ := units.Enqueue(unit);
      View := W.Apply(Capacity(), View, W.PushEmpty);
      Repr := Repr + {unit};
    }

    lemma BucketAt(i: nat)
      requires Valid() && i < |View.closed|
      ensures |units.Contents| == |View.closed|
      ensures units.Contents[i] != null && units.Contents[i] in Repr && units.Contents[i].Holds(View.closed[i])
    {}

    lemma Bounds()
      requires Valid()
      ensures |units.Contents| == |View.closed| && units.Valid() && current in Repr && current.Holds(View.current)
    {}

    method Summary() returns (summary: StatisticalUnit)
      requires Valid()
      ensures fresh(summary) && summary.Holds(W.Summary(View))
    {
      hide Valid, StatisticalUnit.Holds, CircularQueue.Valid, W.Union;
      summary := new StatisticalUnit();
      Bounds();
      var list := units.List();
      W.UnionEmpty();
      var i := 0;
      while i < |list|
        modifies summary
        invariant 0 <= i <= |list|
        invariant summary.Holds(W.Union(View.closed[..i]))
      {
        BucketAt(i);
        W.UnionAppend(View.closed[..i], View.closed[i]);
        assert View.closed[..i + 1] == View.closed[..i] + [View.closed[i]];
        summary.Add(list[i], W.Union(View.closed[..i]), View.closed[i]);
        i := i + 1;
      }
      assert View.closed[..i] == View.closed;
      summary.Add(current, W.Union(View.closed), View.current);
    }

    method RecordSuccess()
      requires Valid()
      modifies Repr
      ensures Valid() && Repr == old(Repr) && Capacity() == old(Capacity())
      ensures View == W.Apply(Capacity(), old(View), W.Record(W.SUCCESS))
    {
      current.Success := current.Success + 1;
      current.Total := current.Total + 1;
      View := W.Apply(Capacity(), View, W.Record(W.SUCCESS));
    }

    method RecordBusinessFailure()
      requires Valid()
      modifies Repr
      ensures Valid() && Repr == old(Repr) && Capacity() == old(Capacity())
      ensures View == W.Apply(Capacity(), old(View), W.Record(W.BUSINESS_FAILURE))
    {
      current.BusinessFailure := current.BusinessFailure + 1;
      current.Total := current.Total + 1;
      View := W.Apply(Capacity(), View, W.Record(W.BUSINESS_FAILURE));
    }

    method RecordNetworkFailure()
      requires Valid()
      modifies Repr
      ensures Valid() && Repr == old(Repr) && Capacity() == old(Capacity())
      ensures View == W.Apply(Capacity(), old(View), W.Record(W.NETWORK_FAILURE))
    {
      current.NetworkFailure := current.NetworkFailure + 1;
      current.Total := current.Total + 1;
      View := W.Apply(Capacity(), View, W.Record(W.NETWORK_FAILURE));
    }

    method RecordTimeout()
      requires Valid()
      modifies Repr
      ensures Valid() && Repr == old(Repr) && Capacity() == old(Capacity())
      ensures View == W.Apply(Capacity(), old(View), W.Record(W.TIMEOUT))
    {
      current.Timeout := current.Timeout + 1;
      current.Total := current.Total + 1;
      View := W.Apply(Capacity(), View, W.Record(W.TIMEOUT));
    }
  }
}
