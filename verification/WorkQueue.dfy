/** The rate-limited work queue of client-go, as far as the worker relies on it. */
module WorkQueues {

  /** `ready` is the order in which keys are handed out; `dirty` keys need processing, `processing` ones are
      being processed, `waiting` ones come back after a delay; `requeues` counts rate-limited additions. */
  datatype Queue = Queue(
    ready: seq<string>,
    dirty: set<string>,
    processing: set<string>,
    waiting: set<string>,
    requeues: map<string, nat>)
  {
    ghost predicate Valid() {
      && (forall k :: k in ready <==> k in dirty && k !in processing)
      && (forall i, j :: 0 <= i < j < |ready| ==> ready[i] != ready[j])
    }

    function NumRequeues(k: string): nat {
      if k in requeues then requeues[k] else 0
    }
  }

  const EMPTY := Queue([], {}, {}, {}, map[])

  /** A key that is dirty already is not added again; one being processed is put off until it is done. */
  function Add(q: Queue, k: string): Queue {
    if k in q.dirty then q
    else q.(dirty := q.dirty + {k}, ready := if k in q.processing then q.ready else q.ready + [k])
  }

  function Get(q: Queue): Queue
    requires q.ready != []
  {
    var k := q.ready[0];
    q.(ready := q.ready[1..], dirty := q.dirty - {k}, processing := q.processing + {k})
  }

  function Done(q: Queue, k: string): Queue {
    q.(processing := q.processing - {k},
       ready := if k in q.processing && k in q.dirty then q.ready + [k] else q.ready)
  }

  function AddRateLimited(q: Queue, k: string): Queue {
    q.(waiting := q.waiting + {k}, requeues := q.requeues[k := q.NumRequeues(k) + 1])
  }

  function Forget(q: Queue, k: string): Queue {
    q.(requeues := q.requeues - {k})
  }

  /** The delay of a waiting key is over. */
  function Fire(q: Queue, k: string): Queue {
    Add(q.(waiting := q.waiting - {k}), k)
  }

  lemma AddStaysValid(q: Queue, k: string)
    requires q.Valid()
    ensures Add(q, k).Valid()
  {}

  lemma DoneStaysValid(q: Queue, k: string)
    requires q.Valid()
    ensures Done(q, k).Valid()
  {}

  lemma GetStaysValid(q: Queue)
    requires q.Valid() && q.ready != []
    ensures Get(q).Valid()
  {
    assert forall j :: 0 < j < |q.ready| ==> q.ready[j] in q.ready[1..];
  }

  lemma CountersDoNotMatter(q: Queue, waiting: set<string>, requeues: map<string, nat>)
    requires q.Valid()
    ensures q.(waiting := waiting).Valid() && q.(waiting := waiting, requeues := requeues).Valid()
  {}

  /** Every operation keeps the ready list the duplicate-free list of dirty keys not in process. */
  lemma QueueStaysValid(q: Queue, k: string)
    requires q.Valid()
    ensures Add(q, k).Valid() && Done(q, k).Valid() && AddRateLimited(q, k).Valid()
    ensures Forget(q, k).Valid() && Fire(q, k).Valid()
    ensures q.ready != [] ==> Get(q).Valid()
  {
    hide Queue.Valid, Add, Done, Get;
    AddStaysValid(q, k);
    DoneStaysValid(q, k);
    CountersDoNotMatter(q, q.waiting + {k}, q.requeues[k := q.NumRequeues(k) + 1]);
    CountersDoNotMatter(q, q.waiting, q.requeues - {k});
    CountersDoNotMatter(q, q.waiting - {k}, q.requeues);
    AddStaysValid(q.(waiting := q.waiting - {k}), k);
    if q.ready != [] {
      GetStaysValid(q);
    }
  }

  class RateLimitingQueue {
    var state: Queue

    constructor ()
      ensures state == EMPTY
    {
      state := EMPTY;
    }
  }
}
