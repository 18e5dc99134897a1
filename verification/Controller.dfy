/** The container controller as a whole: informer callbacks (internal/ctrl/worker/crd_handlers.go) and the
    single worker (internal/ctrl/worker/crd_worker.go) interleave at every cache, queue and API call, while
    others write workloads too. Retries are unlimited, as they are by default. */
module Controller {
  import opened Containers
  import opened EventKeys
  import opened CrdWorkers
  import Q = WorkQueues

  datatype Params = Params(namespace: string, labelKey: string) {
    /** Kubernetes namespaces hold no '/'. */
    predicate Valid() {
      '/' !in namespace
    }
  }

  /** A workload as stored, with the version every accepted write changes. */
  datatype Stored = Stored(workload: Workload, version: nat)

  /** Where the worker is: `todo` holds the listed copies it has not written back yet. */
  datatype Pc =
    | Idle
    | Picked(key: string)
    | Listing(key: string, namespace: string, rewrite: Rewrite, kind: Kind, failed: bool)
    | Writing(key: string, namespace: string, rewrite: Rewrite, kind: Kind, todo: map<Id, Stored>, failed: bool)
    | Finishing(key: string, failed: bool)
    | Settling(key: string)

  datatype Callback = Quiet | Enqueueing(key: string)

  /** `known` records the names that have been in the cache at some time. */
  datatype State = State(
    cache: map<string, Container>,
    known: set<string>,
    queue: Q.Queue,
    cluster: map<Id, Stored>,
    nextVersion: nat,
    worker: Pc,
    informer: Callback)

  datatype Reply = Accepted | Rejected | Lost

  datatype Step =
    | Added(container: Container)
    | Updated(container: Container)
    | Deleted(name: string)
    | Enqueue
    | ForeignWrite(id: Id, workload: Workload)
    | ForeignDelete(id: Id)
    | Fire(key: string)
    | Pick
    | Start
    | List(ok: bool)
    | Write(id: Id, reply: Reply)
    | Advance
    | Settle
    | Done

  function UpdateKey(p: Params, n: string): string {
    Key(Event(UPDATE, p.namespace, n))
  }

  function DeleteKey(p: Params, n: string): string {
    Key(Event(DELETE, p.namespace, n))
  }

  // --- The steps ---

  function DoAdded(p: Params, s: State, c: Container): State {
    s.(cache := if c.name in s.cache then s.cache else s.cache[c.name := c],
       known := s.known + {c.name},
       informer := Enqueueing(Key(Event(ADD, p.namespace, c.name))))
  }

  function DoUpdated(p: Params, s: State, c: Container): State {
    if c.name !in s.cache then s
    else s.(cache := s.cache[c.name := c], informer := Enqueueing(UpdateKey(p, c.name)))
  }

  function DoDeleted(p: Params, s: State, n: string): State {
    if n !in s.cache then s
    else s.(cache := s.cache - {n}, informer := Enqueueing(DeleteKey(p, n)))
  }

  function DoEnqueue(s: State): State
    requires s.informer.Enqueueing?
  {
    s.(queue := Q.Add(s.queue, s.informer.key), informer := Quiet)
  }

  function DoWriteTo(s: State, id: Id, w: Workload): State {
    s.(cluster := s.cluster[id := Stored(w, s.nextVersion)], nextVersion := s.nextVersion + 1)
  }

  function DoPick(s: State): State
    requires s.queue.ready != []
  {
    s.(queue := Q.Get(s.queue), worker := Picked(s.queue.ready[0]))
  }

  function DoStart(s: State): State
    requires s.worker.Picked?
  {
    var key := s.worker.key;
    match ParseEventKey(key)
    case Invalid => s.(worker := Finishing(key, false))
    case Ok(e) =>
      if e.eventType == UPDATE && e.containerName in s.cache then
        s.(worker := Listing(key, e.namespace, Put(s.cache[e.containerName]), Deployment, false))
      else if e.eventType == DELETE then
        s.(worker := Listing(key, e.namespace, Drop(e.containerName), Deployment, false))
      else s.(worker := Finishing(key, false))
  }

  function Listed(p: Params, s: State, kind: Kind, namespace: string): map<Id, Stored> {
    map id | id in s.cluster && Selected(id, s.cluster[id].workload, kind, namespace, p.labelKey) :: s.cluster[id]
  }

  function DoList(p: Params, s: State, ok: bool): State
    requires s.worker.Listing?
  {
    var w := s.worker;
    if !ok then s.(worker := Finishing(w.key, true))
    else s.(worker := Writing(w.key, w.namespace, w.rewrite, w.kind, Listed(p, s, w.kind, w.namespace), w.failed))
  }

  /** The copy is still what is stored. */
  predicate UpToDate(s: State, id: Id, copy: Stored) {
    id in s.cluster && s.cluster[id].version == copy.version
  }

  /** A write of an outdated copy is rejected; any write may be rejected, or its reply lost. */
  function DoWrite(s: State, id: Id, reply: Reply): State
    requires s.worker.Writing? && id in s.worker.todo
  {
    var w := s.worker;
    var copy := w.todo[id];
    if UpToDate(s, id, copy) && !reply.Rejected? then
      DoWriteTo(s, id, RewriteWorkload(w.rewrite, copy.workload))
        .(worker := w.(todo := w.todo - {id}, failed := w.failed || reply.Lost?))
    else s.(worker := w.(todo := w.todo - {id}, failed := true))
  }

  function DoAdvance(s: State): State
    requires s.worker.Writing?
  {
    var w := s.worker;
    if w.kind == Deployment then s.(worker := Listing(w.key, w.namespace, w.rewrite, StatefulSet, w.failed))
    else s.(worker := Finishing(w.key, w.failed))
  }

  function DoSettle(s: State): State
    requires s.worker.Finishing?
  {
    s.(queue := CrdWorkers.Settle(s.queue, s.worker.key, s.worker.failed, -1), worker := Settling(s.worker.key))
  }

  function DoDone(s: State): State
    requires s.worker.Settling?
  {
    s.(queue := Q.Done(s.queue, s.worker.key), worker := Idle)
  }

  predicate Enabled(s: State, step: Step) {
    match step
    case Added(_) => s.informer.Quiet?
    case Updated(_) => s.informer.Quiet?
    case Deleted(_) => s.informer.Quiet?
    case Enqueue => s.informer.Enqueueing?
    case ForeignWrite(_, _) => true
    case ForeignDelete(_) => true
    case Fire(k) => k in s.queue.waiting
    case Pick => s.worker.Idle? && s.queue.ready != []
    case Start => s.worker.Picked?
    case List(_) => s.worker.Listing?
    case Write(id, _) => s.worker.Writing? && id in s.worker.todo
    case Advance => s.worker.Writing? && s.worker.todo == map[]
    case Settle => s.worker.Finishing?
    case Done => s.worker.Settling?
  }

  function Act(p: Params, s: State, step: Step): State
    requires Enabled(s, step)
  {
    match step
    case Added(c) => DoAdded(p, s, c)
    case Updated(c) => DoUpdated(p, s, c)
    case Deleted(n) => DoDeleted(p, s, n)
    case Enqueue => DoEnqueue(s)
    case ForeignWrite(id, w) => DoWriteTo(s, id, w)
    case ForeignDelete(id) => s.(cluster := s.cluster - {id})
    case Fire(k) => s.(queue := Q.Fire(s.queue, k))
    case Pick => DoPick(s)
    case Start => DoStart(s)
    case List(ok) => DoList(p, s, ok)
    case Write(id, reply) => DoWrite(s, id, reply)
    case Advance => DoAdvance(s)
    case Settle => DoSettle(s)
    case Done => DoDone(s)
  }

  // --- Agreement ---

  /** A labelled workload of the namespace. */
  predicate Managed(p: Params, id: Id, w: Workload) {
    id.namespace == p.namespace && p.labelKey in w.labels
  }

  /** The workload holds a container of that name which is not the cached one. */
  ghost predicate Stale(w: Workload, cache: map<string, Container>, n: string) {
    exists c :: Holds(w, c) && c.name == n && (n !in cache || cache[n] != c)
  }

  ghost predicate Disagrees(p: Params, s: State, id: Id, n: string) {
    id in s.cluster && Managed(p, id, s.cluster[id].workload) && Stale(s.cluster[id].workload, s.cache, n)
  }

  predicate Pending(s: State, key: string) {
    key in s.queue.dirty || key in s.queue.waiting || s.informer == Enqueueing(key)
  }

  /** The worker is on the key and still going to get to this workload, or to put the key back. */
  predicate WorkerCovers(s: State, id: Id, key: string) {
    match s.worker
    case Idle => false
    case Picked(k) => k == key
    case Listing(k, _, _, kind, failed) => k == key && (failed || kind == Deployment || id.kind == StatefulSet)
    case Writing(k, _, _, kind, todo, failed) =>
      k == key && (failed || id in todo || (kind == Deployment && id.kind == StatefulSet))
    case Finishing(k, failed) => k == key && failed
    case Settling(_) => false
  }

  predicate Covered(p: Params, s: State, id: Id, n: string) {
    || Pending(s, DeleteKey(p, n)) || WorkerCovers(s, id, DeleteKey(p, n))
    || (n in s.cache && (Pending(s, UpdateKey(p, n)) || WorkerCovers(s, id, UpdateKey(p, n))))
  }

  /** Every disagreement about a name that has been cached is going to be dealt with. */
  ghost predicate Coverage(p: Params, s: State) {
    forall id, n :: n in s.known && Disagrees(p, s, id, n) ==> Covered(p, s, id, n)
  }

  // --- What else every state keeps ---

  /** A container the worker is putting into workloads is the cached one, or a correction is on its way. */
  predicate Justified(p: Params, s: State, c: Container) {
    if c.name in s.cache then
      s.cache[c.name] == c || Pending(s, UpdateKey(p, c.name)) || Pending(s, DeleteKey(p, c.name))
    else Pending(s, DeleteKey(p, c.name))
  }

  ghost predicate OnTask(p: Params, s: State, key: string, namespace: string, r: Rewrite) {
    && ParseEventKey(key) == Ok(Event(if r.Put? then UPDATE else DELETE, namespace, r.Target()))
    && (r.Put? && namespace == p.namespace ==> Justified(p, s, r.container))
  }

  ghost predicate WorkerOk(p: Params, s: State) {
    match s.worker
    case Listing(k, ns, r, _, _) => OnTask(p, s, k, ns, r)
    case Writing(k, ns, r, _, todo, _) =>
      && OnTask(p, s, k, ns, r)
      && forall id :: id in todo ==>
           && id.namespace == ns && todo[id].version < s.nextVersion
           && (UpToDate(s, id, todo[id]) ==> s.cluster[id] == todo[id])
    case _ => true
  }

  ghost predicate StoreOk(s: State) {
    forall id :: id in s.cluster ==> s.cluster[id].version < s.nextVersion && UniqueInWorkload(s.cluster[id].workload)
  }

  ghost predicate CacheOk(s: State) {
    forall n :: n in s.cache ==> s.cache[n].name == n && n in s.known
  }

  ghost predicate QueueOk(s: State) {
    s.queue.Valid() && s.queue.processing == if s.worker.Idle? then {} else {s.worker.key}
  }

  ghost predicate Inv(p: Params, s: State) {
    Coverage(p, s) && WorkerOk(p, s) && StoreOk(s) && CacheOk(s) && QueueOk(s)
  }

  // --- What is asked of the environment ---

  /** Adding a container is no surprise to any workload: the name was managed before, or every labelled
      workload holding a container of that name holds this very container. */
  ghost predicate AddIsSafe(p: Params, s: State, c: Container) {
    c.name in s.known || forall id :: id in s.cluster && Managed(p, id, s.cluster[id].workload) ==>
                                       !Stale(s.cluster[id].workload, map[c.name := c], c.name)
  }

  /** Others may write workloads freely, except for managed containers that are not, and are not about to
      be made, the cached ones. */
  ghost predicate ForeignIsSafe(p: Params, s: State, id: Id, w: Workload) {
    && UniqueInWorkload(w)
    && (Managed(p, id, w) ==>
          forall n :: n in s.known && Stale(w, s.cache, n) ==>
            Pending(s, DeleteKey(p, n)) || (n in s.cache && Pending(s, UpdateKey(p, n))))
  }

  ghost predicate Orderly(p: Params, s: State, step: Step) {
    match step
    case Added(c) => AddIsSafe(p, s, c)
    case ForeignWrite(id, w) => ForeignIsSafe(p, s, id, w)
    case _ => true
  }

  ghost predicate Initial(s: State) {
    && s.cache == map[] && s.known == {} && s.queue == Q.EMPTY
    && s.worker == Idle && s.informer == Quiet
    && StoreOk(s)
  }

  ghost predicate Next(p: Params, s: State, step: Step, t: State) {
    Enabled(s, step) && Orderly(p, s, step) && t == Act(p, s, step)
  }

  ghost predicate Run(p: Params, states: seq<State>, steps: seq<Step>) {
    && |states| == |steps| + 1
    && Initial(states[0])
    && forall i :: 0 <= i < |steps| ==> Next(p, states[i], steps[i], states[i + 1])
  }

  /** Nothing is queued, delayed, being processed or about to be queued. */
  predicate Drained(s: State) {
    s.queue.ready == [] && s.queue.waiting == {} && s.worker.Idle? && s.informer.Quiet?
  }

  /** Every container of that name in a labelled workload is the cached one; without a cached one there is none. */
  ghost predicate Agrees(p: Params, s: State, n: string) {
    forall id :: !Disagrees(p, s, id, n)
  }

  // --- Left alone ---

  /** Steps of the environment: callbacks and other writers. */
  predicate External(step: Step) {
    step.Added? || step.Updated? || step.Deleted? || step.ForeignWrite? || step.ForeignDelete?
  }

  /** API calls that fail although nobody interferes. */
  predicate Failing(step: Step) {
    step == List(false) || (step.Write? && !step.reply.Accepted?)
  }

  /** Whether the steps can be taken one after the other. */
  predicate Possible(p: Params, s: State, steps: seq<Step>)
    decreases steps
  {
    steps == [] || (Enabled(s, steps[0]) && Possible(p, Act(p, s, steps[0]), steps[1..]))
  }

  function After(p: Params, s: State, steps: seq<Step>): State
    requires Possible(p, s, steps)
    decreases steps
  {
    if steps == [] then s else After(p, Act(p, s, steps[0]), steps[1..])
  }
}
