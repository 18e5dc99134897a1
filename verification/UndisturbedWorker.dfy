/** The fine-grained steps of Controller, taken one after the other with nothing in between, amount to the one
    call of `process` that CrdWorkers proves its method against. */
module UndisturbedWorker {
  import opened Containers
  import opened EventKeys
  import opened CrdWorkers
  import opened Controller
  import Q = WorkQueues

  function Workloads(c: map<Id, Stored>): Cluster {
    map id | id in c :: c[id].workload
  }

  function ReplyFor(f: Faults, id: Id): Reply {
    if id in f.rejected then Rejected else if id in f.lost then Lost else Accepted
  }

  /** Every key of the map once. */
  ghost predicate IsOrder(m: map<Id, Stored>, order: seq<Id>) {
    && (forall id :: id in order <==> id in m)
    && (forall i, j :: 0 <= i < j < |order| ==> order[i] != order[j])
  }

  /** The worker has just listed, and nobody has written since. */
  ghost predicate JustListed(s: State, ids: seq<Id>) {
    && s.worker.Writing?
    && (forall id :: id in s.worker.todo ==> id in s.cluster && s.cluster[id] == s.worker.todo[id])
    && (forall id :: id in ids ==> id in s.worker.todo)
    && (forall i, j :: 0 <= i < j < |ids| ==> ids[i] != ids[j])
  }

  function WriteEach(s: State, ids: seq<Id>, f: Faults): State {
    if ids == [] then s
    else
      var t, id := WriteEach(s, ids[..|ids| - 1], f), ids[|ids| - 1];
      if Enabled(t, Write(id, ReplyFor(f, id))) then DoWrite(t, id, ReplyFor(f, id)) else t
  }

  /** What writing some of the listed workloads back does to the worker, and to nothing else but the cluster. */
  ghost predicate Ticked(s: State, t: State, ids: seq<Id>, f: Faults) {
    && s.worker.Writing?
    && t == s.(cluster := t.cluster, nextVersion := t.nextVersion,
               worker := s.worker.(todo := s.worker.todo - (set id | id in ids),
                                   failed := s.worker.failed || AnyFault(ids, f)))
  }

  /** What it does to the cluster. */
  ghost predicate Stores(s: State, t: State, ids: seq<Id>, f: Faults) {
    && s.worker.Writing?
    && t.cluster.Keys == s.cluster.Keys
    && (forall id :: id in s.cluster && id !in ids ==> t.cluster[id] == s.cluster[id])
    && (forall id :: id in s.cluster && id in ids ==>
          t.cluster[id].workload == if id in f.rejected then s.cluster[id].workload
                                    else RewriteWorkload(s.worker.rewrite, s.cluster[id].workload))
  }

  ghost predicate Written(s: State, t: State, ids: seq<Id>, f: Faults) {
    Ticked(s, t, ids, f) && Stores(s, t, ids, f)
  }

  lemma LastIsNew(ids: seq<Id>, id: Id)
    requires forall i, j :: 0 <= i < j <= |ids| ==> (ids + [id])[i] != (ids + [id])[j]
    ensures id !in ids && id in ids + [id] && (set i | i in ids + [id]) == (set i | i in ids) + {id}
  {
    assert (ids + [id])[|ids|] == id && forall i :: 0 <= i < |ids| ==> (ids + [id])[i] == ids[i];
  }

  /** The next workload is still to be written, and its copy is current. */
  lemma NextIsCurrent(s: State, t: State, ids: seq<Id>, id: Id, f: Faults)
    requires Written(s, t, ids, f) && JustListed(s, ids + [id])
    ensures t.worker.Writing? && id in t.worker.todo && id in s.cluster && id in t.cluster
    ensures t.worker.todo[id] == s.cluster[id] == t.cluster[id]
  {
    hide RewriteWorkload, AnyFault;
    LastIsNew(ids, id);
  }

  lemma WriteOne(s: State, t: State, ids: seq<Id>, id: Id, f: Faults)
    requires Written(s, t, ids, f) && JustListed(s, ids + [id])
    ensures Enabled(t, Write(id, ReplyFor(f, id)))
    ensures Written(s, DoWrite(t, id, ReplyFor(f, id)), ids + [id], f)
  {
    hide RewriteWorkload, AnyFault, JustListed;
    NextIsCurrent(s, t, ids, id, f);
    WriteTicks(s, t, ids, id, f);
    WriteStores(s, t, ids, id, f);
  }

  lemma WriteTicks(s: State, t: State, ids: seq<Id>, id: Id, f: Faults)
    requires Ticked(s, t, ids, f) && JustListed(s, ids + [id])
    requires id in t.worker.todo && id in t.cluster && t.worker.todo[id] == s.cluster[id] == t.cluster[id]
    ensures Ticked(s, DoWrite(t, id, ReplyFor(f, id)), ids + [id], f)
  {
    hide RewriteWorkload, AnyFault;
    LastIsNew(ids, id);
    PartialStep(map[id := s.cluster[id].workload], ids, id, s.worker.rewrite, f);
    assert s.worker.todo - (set i | i in ids) - {id} == s.worker.todo - (set i | i in ids + [id]);
  }

  lemma WriteStores(s: State, t: State, ids: seq<Id>, id: Id, f: Faults)
    requires Ticked(s, t, ids, f) && Stores(s, t, ids, f)
    requires id in t.worker.todo && id in t.cluster && t.worker.todo[id] == s.cluster[id] == t.cluster[id]
    ensures Stores(s, DoWrite(t, id, ReplyFor(f, id)), ids + [id], f)
  {
    hide RewriteWorkload, AnyFault;
  }

  lemma {:induction false} WriteEachWrites(s: State, ids: seq<Id>, f: Faults)
    requires JustListed(s, ids)
    ensures Written(s, WriteEach(s, ids, f), ids, f)
  {
    hide Written, DoWrite, Enabled;
    if ids == [] {
      NothingWritten(s, f);
    } else {
      var init, id := ids[..|ids| - 1], ids[|ids| - 1];
      WriteEachWrites(s, init, f);
      assert ids == init + [id];
      WriteOne(s, WriteEach(s, init, f), init, id, f);
    }
  }

  lemma NothingWritten(s: State, f: Faults)
    requires s.worker.Writing?
    ensures Written(s, s, [], f)
  {}

  /** Listing one kind and writing every listed workload back, in the given order. */
  function Phase(p: Params, s: State, ok: bool, order: seq<Id>, f: Faults): State
    requires s.worker.Listing?
  {
    var t := DoList(p, s, ok);
    if !ok then t
    else
      var u := WriteEach(t, order, f);
      if u.worker.Writing? then DoAdvance(u) else u
  }

  lemma WorkloadsWritten(s: State, t: State, ids: seq<Id>, f: Faults)
    requires Stores(s, t, ids, f)
    ensures Workloads(t.cluster) == Partial(Workloads(s.cluster), ids, s.worker.rewrite, f.rejected)
  {}

  lemma PhaseIsPass(p: Params, s: State, order: seq<Id>, f: Faults)
    requires s.worker.Listing? && IsOrder(Listed(p, s, s.worker.kind, s.worker.namespace), order)
    ensures var w, t := s.worker, Phase(p, s, true, order, f);
            && Workloads(t.cluster)
               == Pass(Workloads(s.cluster), w.kind, w.namespace, p.labelKey, w.rewrite, f.rejected)
            && t == s.(cluster := t.cluster, nextVersion := t.nextVersion, worker := t.worker)
            && var failed := w.failed || PassFails(Workloads(s.cluster), w.kind, w.namespace, p.labelKey, f);
               t.worker == if w.kind == Deployment then Listing(w.key, w.namespace, w.rewrite, StatefulSet, failed)
                           else Finishing(w.key, failed)
    ensures WriteEach(DoList(p, s, true), order, f).worker.Writing?
    ensures WriteEach(DoList(p, s, true), order, f).worker.todo == map[]
  {
    hide RewriteWorkload, Partial, Stores;
    var t, c := DoList(p, s, true), Workloads(s.cluster);
    WriteEachWrites(t, order, f);
    WorkloadsWritten(t, WriteEach(t, order, f), order, f);
    PartialEnd(c, order, s.worker.kind, s.worker.namespace, p.labelKey, s.worker.rewrite, f);
  }

  /** The steps of one key, from its start to its end, undisturbed. */
  function ProcessKey(p: Params, s: State, f: Faults, deployments: seq<Id>, statefulSets: seq<Id>): State
    requires s.worker.Picked?
  {
    var s1 := DoStart(s);
    var s2 := if s1.worker.Listing? then Phase(p, s1, !f.listDeployments, deployments, f) else s1;
    var s3 := if s2.worker.Listing? then Phase(p, s2, !f.listStatefulSets, statefulSets, f) else s2;
    if s3.worker.Finishing? then DoDone(DoSettle(s3)) else s3
  }

  /** What the machine's worker does to the cluster and the queue, when nothing interferes, is what one call
      of `process` does: the same workloads, and the same key put back or forgotten. */
  lemma UndisturbedRunIsOneProcess(p: Params, s: State, f: Faults, deployments: seq<Id>, statefulSets: seq<Id>)
    requires s.worker.Picked?
    requires var s1 := DoStart(s);
             s1.worker.Listing? ==>
               && IsOrder(Listed(p, s1, Deployment, s1.worker.namespace), deployments)
               && var s2 := Phase(p, s1, !f.listDeployments, deployments, f);
                  s2.worker.Listing? ==> IsOrder(Listed(p, s2, StatefulSet, s2.worker.namespace), statefulSets)
    ensures var t, parsed := ProcessKey(p, s, f, deployments, statefulSets), ParseEventKey(s.worker.key);
            var result := if parsed.Ok? then ProcessEvent(s.cache, Workloads(s.cluster), p.labelKey, parsed.event, f)
                          else (Workloads(s.cluster), false);
            && t.worker.Idle? && Workloads(t.cluster) == result.0
            && t.queue == Q.Done(CrdWorkers.Settle(s.queue, s.worker.key, result.1, -1), s.worker.key)
            && t.cache == s.cache
  {
    hide ParseEventKey, Phase, Pass, PassFails, Listed, Workloads;
    var s1 := DoStart(s);
    if s1.worker.Listing? {
      if f.listDeployments {
        PhaseFails(p, s1, deployments, f);
      } else {
        PhaseIsPass(p, s1, deployments, f);
        var s2 := Phase(p, s1, true, deployments, f);
        if f.listStatefulSets {
          PhaseFails(p, s2, statefulSets, f);
        } else {
          PhaseIsPass(p, s2, statefulSets, f);
        }
      }
    }
  }

  lemma PhaseFails(p: Params, s: State, order: seq<Id>, f: Faults)
    requires s.worker.Listing?
    ensures Phase(p, s, false, order, f) == s.(worker := Finishing(s.worker.key, true))
  {}
}
