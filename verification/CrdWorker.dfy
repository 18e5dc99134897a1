/** internal/ctrl/worker/crd_worker.go: one attempt to carry an event out, and what becomes of its key. */
module CrdWorkers {
  import opened Containers
  import opened EventKeys
  import opened GeneralCaches
  import Q = WorkQueues

  datatype Kind = Deployment | StatefulSet

  datatype Id = Id(kind: Kind, namespace: string, name: string)

  type Cluster = map<Id, Workload>

  /** Which API calls of one attempt fail. An update to a `rejected` workload is not carried out; one whose
      reply is `lost` is carried out, but the worker is told it failed. */
  datatype Faults = Faults(listDeployments: bool, listStatefulSets: bool, rejected: set<Id>, lost: set<Id>)

  const NO_FAULTS := Faults(false, false, {}, {})

  predicate Selected(id: Id, w: Workload, kind: Kind, namespace: string, labelKey: string) {
    id.kind == kind && id.namespace == namespace && labelKey in w.labels
  }

  /** Rewriting every labelled workload of a kind, except those whose update is rejected. */
  function Pass(c: Cluster, kind: Kind, namespace: string, labelKey: string, r: Rewrite, rejected: set<Id>): Cluster {
    map id | id in c ::
      if Selected(id, c[id], kind, namespace, labelKey) && id !in rejected then RewriteWorkload(r, c[id]) else c[id]
  }

  /** Pass, as far as it has come when the workloads in `done` have been dealt with. */
  ghost function Partial(c: Cluster, done: seq<Id>, r: Rewrite, rejected: set<Id>): Cluster {
    map id | id in c :: if id in done && id !in rejected then RewriteWorkload(r, c[id]) else c[id]
  }

  ghost predicate AnyFault(done: seq<Id>, f: Faults) {
    exists id :: id in done && id in f.rejected + f.lost
  }

  lemma PartialStep(c: Cluster, done: seq<Id>, id: Id, r: Rewrite, f: Faults)
    requires id in c
    ensures Partial(c, done + [id], r, f.rejected)
         == if id in f.rejected then Partial(c, done, r, f.rejected)
            else Partial(c, done, r, f.rejected)[id := RewriteWorkload(r, c[id])]
    ensures AnyFault(done + [id], f) <==> AnyFault(done, f) || id in f.rejected + f.lost
  {}

  lemma PartialStart(c: Cluster, r: Rewrite, f: Faults)
    ensures Partial(c, [], r, f.rejected) == c && !AnyFault([], f)
  {}

  lemma KeepsKeys(c: Cluster, done: seq<Id>, r: Rewrite, rejected: set<Id>)
    ensures Partial(c, done, r, rejected).Keys == c.Keys
  {}

  lemma PartialEnd(c: Cluster, items: seq<Id>, kind: Kind, namespace: string, labelKey: string, r: Rewrite, f: Faults)
    requires forall id :: id in items <==> id in c && Selected(id, c[id], kind, namespace, labelKey)
    ensures Partial(c, items, r, f.rejected) == Pass(c, kind, namespace, labelKey, r, f.rejected)
    ensures PassFails(c, kind, namespace, labelKey, f) <==> AnyFault(items, f)
  {}

  predicate PassFails(c: Cluster, kind: Kind, namespace: string, labelKey: string, faults: Faults) {
    exists id :: id in c && Selected(id, c[id], kind, namespace, labelKey) && id in faults.rejected + faults.lost
  }

  /** One attempt: Deployments first, then StatefulSets; a failed list ends it, a failed update does not. */
  function Attempt(c: Cluster, namespace: string, labelKey: string, r: Rewrite, f: Faults): (result: (Cluster, bool)) {
    if f.listDeployments then (c, true)
    else
      var d := Pass(c, Deployment, namespace, labelKey, r, f.rejected);
      if f.listStatefulSets then (d, true)
      else
        (Pass(d, StatefulSet, namespace, labelKey, r, f.rejected),
         PassFails(c, Deployment, namespace, labelKey, f) || PassFails(d, StatefulSet, namespace, labelKey, f))
  }

  /** What processEvent does: nothing for Add and unknown types, nothing for an Update of a container that
      is no longer cached. The second result tells whether there was an error. */
  function ProcessEvent(cache: map<string, Container>, c: Cluster, labelKey: string, e: Event, f: Faults)
    : (Cluster, bool)
  {
    if e.eventType == UPDATE && e.containerName in cache then
      Attempt(c, e.namespace, labelKey, Put(cache[e.containerName]), f)
    else if e.eventType == DELETE then
      Attempt(c, e.namespace, labelKey, Drop(e.containerName), f)
    else (c, false)
  }

  predicate ShouldRetry(q: Q.Queue, key: string, maxRetries: int) {
    maxRetries < 0 || q.NumRequeues(key) < maxRetries
  }

  /** What becomes of a key once it has been processed. */
  function Settle(q: Q.Queue, key: string, failed: bool, maxRetries: int): Q.Queue {
    if failed && ShouldRetry(q, key, maxRetries) then Q.AddRateLimited(q, key) else Q.Forget(q, key)
  }

  /** The API server, which answers each call of an attempt as the faults say. */
  class ApiServer {
    var cluster: Cluster

    constructor (cluster: Cluster)
      ensures this.cluster == cluster
    {
      this.cluster := cluster;
    }

    /** The labelled workloads of a kind, in no particular order. */
    method List(kind: Kind, namespace: string, labelKey: string) returns (items: seq<Id>)
      ensures forall id :: id in items <==> id in cluster && Selected(id, cluster[id], kind, namespace, labelKey)
    {
      items := [];
      var todo := set id | id in cluster && Selected(id, cluster[id], kind, namespace, labelKey);
      ghost var all := todo;
      while todo != {}
        invariant todo <= all
        invariant forall id :: id in items <==> id in all && id !in todo
        decreases todo
      {
        var id :| id in todo;
        todo := todo - {id};
        items := items + [id];
      }
    }

    method Update(id: Id, w: Workload, f: Faults) returns (failed: bool)
      requires id in cluster
      modifies this
      ensures cluster == if id in f.rejected then old(cluster) else old(cluster)[id := w]
      ensures failed <==> id in f.rejected + f.lost
    {
      if id !in f.rejected {
        cluster := cluster[id := w];
      }
      failed := id in f.rejected + f.lost;
    }
  }

  class CRDWorker {
    const queue: Q.RateLimitingQueue
    const cache: GeneralCache<Container>
    const api: ApiServer
    const labelKey: string
    const maxRetries: int

    constructor (cache: GeneralCache<Container>, queue: Q.RateLimitingQueue, api: ApiServer,
                 labelKey: string, maxRetries: int)
      ensures this.cache == cache && this.queue == queue && this.api == api
      ensures this.labelKey == labelKey && this.maxRetries == maxRetries
    {
      this.cache, this.queue, this.api := cache, queue, api;
      this.labelKey, this.maxRetries := labelKey, maxRetries;
    }

    method RewriteOne(id: Id, w: Workload, r: Rewrite, f: Faults) returns (failed: bool)
      requires id in api.cluster
      modifies api
      ensures api.cluster == if id in f.rejected then old(api.cluster)
                             else old(api.cluster)[id := RewriteWorkload(r, w)]
      ensures failed <==> id in f.rejected + f.lost
    {
      var updated;
      match r {
        case Put(container) => updated := WithContainerUpdated(w, container);
        case Drop(name) => updated := WithContainerRemoved(w, name);
      }
      failed := api.Update(id, updated, f);
    }

    /** Lists the workloads of one kind and rewrites them one by one; failed updates are collected. */
    method RewriteKind(kind: Kind, namespace: string, r: Rewrite, f: Faults) returns (failed: bool)
      modifies api
      ensures api.cluster == Pass(old(api.cluster), kind, namespace, labelKey, r, f.rejected)
      ensures failed <==> PassFails(old(api.cluster), kind, namespace, labelKey, f)
    {
      hide Partial, Selected, RewriteWorkload, AnyFault, Pass, PassFails;
      failed := false;
      ghost var start := api.cluster;
      var items := api.List(kind, namespace, labelKey);
      var listed := api.cluster;
      var i := 0;
      PartialStart(start, r, f);
      while i < |items|
        invariant 0 <= i <= |items|
        invariant api.cluster == Partial(start, items[..i], r, f.rejected)
        invariant failed <==> AnyFault(items[..i], f)
      {
        var id := items[i];
        assert id in items;
        PartialStep(start, items[..i], id, r, f);
        KeepsKeys(start, items[..i], r, f.rejected);
        assert items[..i + 1] == items[..i] + [id];
        var err := RewriteOne(id, listed[id], r, f);
        failed := failed || err;
        i := i + 1;
      }
      assert items[..|items|] == items;
      PartialEnd(start, items, kind, namespace, labelKey, r, f);
    }

    method Reconcile(namespace: string, r: Rewrite, f: Faults) returns (failed: bool)
      modifies api
      ensures (api.cluster, failed) == Attempt(old(api.cluster), namespace, labelKey, r, f)
    {
      if f.listDeployments {
        return true;
      }
      var err1 := RewriteKind(Deployment, namespace, r, f);
      if f.listStatefulSets {
        return true;
      }
      var err2 := RewriteKind(StatefulSet, namespace, r, f);
      return err1 || err2;
    }

    method ReconcileUpdate(containerName: string, namespace: string, f: Faults) returns (failed: bool)
      modifies api
      ensures (api.cluster, failed)
           == if containerName in cache.data
              then Attempt(old(api.cluster), namespace, labelKey, Put(cache.data[containerName]), f)
              else (old(api.cluster), false)
    {
      var container, ok := cache.Get(containerName);
      if !ok {
        return false;
      }
      failed := Reconcile(namespace, Put(container.value), f);
    }

    method ReconcileDelete(containerName: string, namespace: string, f: Faults) returns (failed: bool)
      modifies api
      ensures (api.cluster, failed) == Attempt(old(api.cluster), namespace, labelKey, Drop(containerName), f)
    {
      failed := Reconcile(namespace, Drop(containerName), f);
    }

    method DispatchEvent(e: Event, f: Faults) returns (failed: bool)
      modifies api
      ensures (api.cluster, failed) == ProcessEvent(cache.data, old(api.cluster), labelKey, e, f)
    {
      if e.eventType == ADD {
        return false;
      } else if e.eventType == UPDATE {
        failed := ReconcileUpdate(e.containerName, e.namespace, f);
      } else if e.eventType == DELETE {
        failed := ReconcileDelete(e.containerName, e.namespace, f);
      } else {
        return false;
      }
    }

    /** Processes a key handed out by the queue. A key that cannot be parsed is dropped. */
    method Process(key: string, f: Faults)
      requires queue as object != api
      modifies api, queue
      ensures var parsed := ParseEventKey(key);
              var result := if parsed.Ok? then ProcessEvent(cache.data, old(api.cluster), labelKey, parsed.event, f)
                            else (old(api.cluster), false);
              && api.cluster == result.0
              && queue.state == Q.Done(Settle(old(queue.state), key, result.1, maxRetries), key)
    {
      var parsed := ParseEventKey(key);
      if parsed.Invalid? {
        queue.state := Q.Done(Q.Forget(queue.state, key), key);
        return;
      }
      var failed := DispatchEvent(parsed.event, f);
      if failed {
        if maxRetries < 0 || queue.state.NumRequeues(key) < maxRetries {
          queue.state := Q.Done(Q.AddRateLimited(queue.state, key), key);
          return;
        }
      }
      queue.state := Q.Done(Q.Forget(queue.state, key), key);
    }
  }
}

/** internal/ctrl/worker/crd_handlers.go: informer callbacks. */
module CrdHandlers {
  import opened Containers
  import opened EventKeys
  import opened GeneralCaches
  import opened Wrappers
  import Q = WorkQueues

  /** An informer object: a container resource of a namespace, or something that cannot be parsed as one. */
  datatype Obj = Resource(namespace: string, container: Container) | Unparsable

  /** What a callback makes of the cache, and the key it queues, if it queues one. */
  datatype Effect = Effect(cache: map<string, Container>, key: Option<string>)

  function AddedEffect(cache: map<string, Container>, obj: Obj): Effect {
    match obj
    case Unparsable => Effect(cache, None)
    case Resource(namespace, c) =>
      Effect(if c.name in cache then cache else cache[c.name := c], Some(Key(Event(ADD, namespace, c.name))))
  }

  function UpdatedEffect(cache: map<string, Container>, obj: Obj): Effect {
    match obj
    case Unparsable => Effect(cache, None)
    case Resource(namespace, c) =>
      if c.name !in cache then Effect(cache, None)
      else Effect(cache[c.name := c], Some(Key(Event(UPDATE, namespace, c.name))))
  }

  function DeletedEffect(cache: map<string, Container>, obj: Obj): Effect {
    match obj
    case Unparsable => Effect(cache, None)
    case Resource(namespace, c) =>
      if c.name !in cache then Effect(cache, None)
      else Effect(cache - {c.name}, Some(Key(Event(DELETE, namespace, c.name))))
  }

  function Queued(q: Q.Queue, key: Option<string>): Q.Queue {
    if key.Some? then Q.Add(q, key.value) else q
  }

  class CRDHandlers {
    const cache: GeneralCache<Container>
    const queue: Q.RateLimitingQueue

    constructor (cache: GeneralCache<Container>, queue: Q.RateLimitingQueue)
      ensures this.cache == cache && this.queue == queue
    {
      this.cache, this.queue := cache, queue;
    }

    method Enqueue(e: Event)
      modifies queue
      ensures queue.state == Q.Add(old(queue.state), Key(e))
    {
      queue.state := Q.Add(queue.state, Key(e));
    }

    /** An existing entry is kept, but an Add event is queued all the same. */
    method OnAdded(obj: Obj)
      modifies cache, queue
      ensures var effect := AddedEffect(old(cache.data), obj);
              cache.data == effect.cache && queue.state == Queued(old(queue.state), effect.key)
      ensures obj.Unparsable? ==> cache.data == old(cache.data) && queue.state == old(queue.state)
      ensures obj.Resource? ==>
                var name := obj.container.name;
                && cache.data == (if name in old(cache.data) then old(cache.data)
                                  else old(cache.data)[name := obj.container])
                && queue.state == Q.Add(old(queue.state), Key(Event(ADD, obj.namespace, name)))
    {
      if obj.Unparsable? {
        return;
      }
      var _, _ := cache.Add(obj.container.name, obj.container);
      Enqueue(Event(ADD, obj.namespace, obj.container.name));
    }

    method OnUpdated(newObj: Obj)
      modifies cache, queue
      ensures var effect := UpdatedEffect(old(cache.data), newObj);
              cache.data == effect.cache && queue.state == Queued(old(queue.state), effect.key)
      ensures newObj.Unparsable? || newObj.container.name !in old(cache.data) ==>
                cache.data == old(cache.data) && queue.state == old(queue.state)
      ensures newObj.Resource? && newObj.container.name in old(cache.data) ==>
                && cache.data == old(cache.data)[newObj.container.name := newObj.container]
                && queue.state == Q.Add(old(queue.state), Key(Event(UPDATE, newObj.namespace, newObj.container.name)))
    {
      if newObj.Unparsable? {
        return;
      }
      var _, ok := cache.Update(newObj.container.name, newObj.container);
      if !ok {
        return;
      }
      Enqueue(Event(UPDATE, newObj.namespace, newObj.container.name));
    }

    method OnDeleted(obj: Obj)
      modifies cache, queue
      ensures var effect := DeletedEffect(old(cache.data), obj);
              cache.data == effect.cache && queue.state == Queued(old(queue.state), effect.key)
      ensures obj.Unparsable? || obj.container.name !in old(cache.data) ==>
                cache.data == old(cache.data) && queue.state == old(queue.state)
      ensures obj.Resource? && obj.container.name in old(cache.data) ==>
                && cache.data == old(cache.data) - {obj.container.name}
                && queue.state == Q.Add(old(queue.state), Key(Event(DELETE, obj.namespace, obj.container.name)))
    {
      if obj.Unparsable? {
        return;
      }
      var _, ok := cache.Delete(obj.container.name);
      if !ok {
        return;
      }
      Enqueue(Event(DELETE, obj.namespace, obj.container.name));
    }
  }
}
