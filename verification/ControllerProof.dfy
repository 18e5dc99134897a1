/** Every run of the controller keeps its invariant, and a drained controller has converged. */
module ControllerProof {
  import opened Containers
  import opened EventKeys
  import opened CrdWorkers
  import opened Controller
  import Q = WorkQueues

  lemma KeysParse(p: Params, n: string)
    requires p.Valid()
    ensures ParseEventKey(UpdateKey(p, n)) == Ok(Event(UPDATE, p.namespace, n))
    ensures ParseEventKey(DeleteKey(p, n)) == Ok(Event(DELETE, p.namespace, n))
  {
    hide Key, ParseEventKey;
    KeyRoundTrip(Event(UPDATE, p.namespace, n));
    KeyRoundTrip(Event(DELETE, p.namespace, n));
  }

  // --- Coverage, step by step, for one workload and one name ---

  lemma AddedCovers(p: Params, s: State, c: Container, id: Id, n: string)
    requires Inv(p, s) && s.informer.Quiet? && AddIsSafe(p, s, c)
    requires n in DoAdded(p, s, c).known && Disagrees(p, DoAdded(p, s, c), id, n)
    ensures Covered(p, DoAdded(p, s, c), id, n)
  {
    hide Key;
    var t := DoAdded(p, s, c);
    var w := s.cluster[id].workload;
    if n == c.name && n !in s.known {
      SameStale(w, map[n := c], t.cache, n);
    } else {
      GrownCache(w, s.cache, t.cache, n);
      assert Disagrees(p, s, id, n);
    }
  }

  /** A workload that is stale for a name was stale for it before the name got an entry. */
  lemma GrownCache(w: Workload, a: map<string, Container>, b: map<string, Container>, n: string)
    requires n in a ==> n in b && b[n] == a[n]
    ensures Stale(w, b, n) ==> Stale(w, a, n)
  {}

  lemma UpdatedCovers(p: Params, s: State, c: Container, id: Id, n: string)
    requires Inv(p, s) && s.informer.Quiet?
    requires n in s.known && Disagrees(p, DoUpdated(p, s, c), id, n)
    ensures Covered(p, DoUpdated(p, s, c), id, n)
  {
    hide Key;
    var t := DoUpdated(p, s, c);
    if n != c.name || c.name !in s.cache {
      SameEntry(s, t, id, n);
      assert Disagrees(p, s, id, n);
    }
  }

  lemma DeletedCovers(p: Params, s: State, m: string, id: Id, n: string)
    requires Inv(p, s) && s.informer.Quiet?
    requires n in s.known && Disagrees(p, DoDeleted(p, s, m), id, n)
    ensures Covered(p, DoDeleted(p, s, m), id, n)
  {
    hide Key;
    var t := DoDeleted(p, s, m);
    if n != m || m !in s.cache {
      SameEntry(s, t, id, n);
      assert Disagrees(p, s, id, n);
    }
  }

  /** Whether a workload is stale for a name depends on that name's cache entry only. */
  lemma SameEntry(s: State, t: State, id: Id, n: string)
    requires id in s.cluster && id in t.cluster && s.cluster[id] == t.cluster[id]
    requires (n in s.cache <==> n in t.cache) && (n in s.cache ==> s.cache[n] == t.cache[n])
    ensures Stale(t.cluster[id].workload, t.cache, n) <==> Stale(s.cluster[id].workload, s.cache, n)
  {}

  /** Steps that change neither cache nor cluster and keep every kind of cover. */
  lemma KeepsCover(p: Params, s: State, t: State, id: Id, n: string)
    requires Inv(p, s) && t.cache == s.cache && t.known == s.known && t.cluster == s.cluster
    requires n in s.known && Disagrees(p, t, id, n)
    requires forall key :: key == UpdateKey(p, n) || key == DeleteKey(p, n) ==>
               (Pending(s, key) || WorkerCovers(s, id, key) ==> Pending(t, key) || WorkerCovers(t, id, key))
    ensures Covered(p, t, id, n)
  {
    hide Key, Stale;
    assert Disagrees(p, s, id, n);
  }

  lemma QueueStepsCover(p: Params, s: State, step: Step, id: Id, n: string)
    requires Inv(p, s) && Enabled(s, step)
    requires step.Enqueue? || step.Fire? || step.Pick? || step.Settle? || step.Done?
    requires n in s.known && Disagrees(p, Act(p, s, step), id, n)
    ensures Covered(p, Act(p, s, step), id, n)
  {
    hide Key, Disagrees, ParseEventKey, Covered;
    match step {
      case Enqueue => KeepsCover(p, s, Act(p, s, step), id, n);
      case Fire(_) => KeepsCover(p, s, Act(p, s, step), id, n);
      case Pick => KeepsCover(p, s, Act(p, s, step), id, n);
      case Settle => KeepsCover(p, s, Act(p, s, step), id, n);
      case Done => KeepsCover(p, s, Act(p, s, step), id, n);
    }
  }

  lemma StartCovers(p: Params, s: State, id: Id, n: string)
    requires p.Valid() && Inv(p, s) && s.worker.Picked?
    requires n in s.known && Disagrees(p, DoStart(s), id, n)
    ensures Covered(p, DoStart(s), id, n)
  {
    hide Key, ParseEventKey;
    KeysParse(p, n);
    assert Disagrees(p, s, id, n);
  }

  lemma ListCovers(p: Params, s: State, ok: bool, id: Id, n: string)
    requires p.Valid() && Inv(p, s) && s.worker.Listing?
    requires n in s.known && Disagrees(p, DoList(p, s, ok), id, n)
    ensures Covered(p, DoList(p, s, ok), id, n)
  {
    hide Key, ParseEventKey, Stale;
    KeysParse(p, n);
    assert Disagrees(p, s, id, n);
  }

  lemma AdvanceCovers(p: Params, s: State, id: Id, n: string)
    requires Inv(p, s) && s.worker.Writing? && s.worker.todo == map[]
    requires n in s.known && Disagrees(p, DoAdvance(s), id, n)
    ensures Covered(p, DoAdvance(s), id, n)
  {
    hide Key, ParseEventKey, Stale;
    assert Disagrees(p, s, id, n);
  }

  lemma ForeignCovers(p: Params, s: State, id': Id, w: Workload, id: Id, n: string)
    requires Inv(p, s) && ForeignIsSafe(p, s, id', w)
    requires n in s.known && Disagrees(p, DoWriteTo(s, id', w), id, n)
    ensures Covered(p, DoWriteTo(s, id', w), id, n)
  {
    hide Key, Stale;
    if id != id' {
      assert Disagrees(p, s, id, n);
    }
  }

  /** What a rewritten workload holds. */
  lemma RewriteHolds(r: Rewrite, w: Workload, c: Container)
    requires UniqueInWorkload(w) && Holds(RewriteWorkload(r, w), c)
    ensures if c.name == r.Target() then r.Put? && c == r.container else Holds(w, c)
  {
    match r {
      case Put(d) =>
        ReplacedMembers(w.initContainers, d, c);
        ReplacedMembers(w.containers, d, c);
      case Drop(name) =>
        WithoutMembers(w.initContainers, name, c);
        WithoutMembers(w.containers, name, c);
    }
  }

  /** After an accepted write, a workload disagrees about the worker's name only if the worker put in a
      container that is outdated, and about other names only if it did before. */
  lemma RewriteStale(r: Rewrite, w: Workload, cache: map<string, Container>, n: string)
    requires UniqueInWorkload(w) && Stale(RewriteWorkload(r, w), cache, n)
    ensures if n == r.Target() then r.Put? && !(n in cache && cache[n] == r.container) else Stale(w, cache, n)
  {
    hide RewriteWorkload;
    var c :| Holds(RewriteWorkload(r, w), c) && c.name == n && (n !in cache || cache[n] != c);
    RewriteHolds(r, w, c);
  }

  lemma RewriteKeepsLabels(r: Rewrite, w: Workload)
    ensures RewriteWorkload(r, w).labels == w.labels
  {}

  lemma WriteCovers(p: Params, s: State, id': Id, reply: Reply, id: Id, n: string)
    requires p.Valid() && Inv(p, s) && s.worker.Writing? && id' in s.worker.todo
    requires n in s.known && Disagrees(p, DoWrite(s, id', reply), id, n)
    ensures Covered(p, DoWrite(s, id', reply), id, n)
  {
    hide Key, ParseEventKey, Stale, RewriteWorkload, UniqueInWorkload;
    KeysParse(p, n);
    var t := DoWrite(s, id', reply);
    var w := s.worker;
    if id == id' && UpToDate(s, id', w.todo[id']) && !reply.Rejected? {
      RewriteKeepsLabels(w.rewrite, s.cluster[id].workload);
      RewriteStale(w.rewrite, s.cluster[id].workload, s.cache, n);
      assert w.namespace == p.namespace;
      if n != w.rewrite.Target() {
        assert Disagrees(p, s, id, n);
      }
    } else {
      assert Disagrees(p, s, id, n);
    }
  }

  /** No step loses track of a disagreement. */
  lemma CoverageStep(p: Params, s: State, step: Step, id: Id, n: string)
    requires p.Valid() && Inv(p, s) && Enabled(s, step) && Orderly(p, s, step)
    requires n in Act(p, s, step).known && Disagrees(p, Act(p, s, step), id, n)
    ensures Covered(p, Act(p, s, step), id, n)
  {
    hide Disagrees, Covered, AddIsSafe, ForeignIsSafe, Key, ParseEventKey, Inv,
         DoAdded, DoUpdated, DoDeleted, DoStart, DoList, DoWrite, DoAdvance, DoWriteTo;
    match step {
      case Added(c) => AddedCovers(p, s, c, id, n);
      case Updated(c) => KnownUnchanged(p, s, step); UpdatedCovers(p, s, c, id, n);
      case Deleted(m) => KnownUnchanged(p, s, step); DeletedCovers(p, s, m, id, n);
      case Enqueue => QueueStepsCover(p, s, step, id, n);
      case ForeignWrite(id', w) => KnownUnchanged(p, s, step); ForeignCovers(p, s, id', w, id, n);
      case ForeignDelete(id') => ForeignDeleteCovers(p, s, id', id, n);
      case Fire(_) => QueueStepsCover(p, s, step, id, n);
      case Pick => QueueStepsCover(p, s, step, id, n);
      case Start => KnownUnchanged(p, s, step); StartCovers(p, s, id, n);
      case List(ok) => KnownUnchanged(p, s, step); ListCovers(p, s, ok, id, n);
      case Write(id', reply) => KnownUnchanged(p, s, step); WriteCovers(p, s, id', reply, id, n);
      case Advance => KnownUnchanged(p, s, step); AdvanceCovers(p, s, id, n);
      case Settle => QueueStepsCover(p, s, step, id, n);
      case Done => QueueStepsCover(p, s, step, id, n);
    }
  }

  lemma KnownUnchanged(p: Params, s: State, step: Step)
    requires Enabled(s, step) && !step.Added?
    ensures Act(p, s, step).known == s.known
  {
    hide Key, ParseEventKey;
  }

  lemma ForeignDeleteCovers(p: Params, s: State, id': Id, id: Id, n: string)
    requires Inv(p, s) && n in s.known && Disagrees(p, s.(cluster := s.cluster - {id'}), id, n)
    ensures Covered(p, s.(cluster := s.cluster - {id'}), id, n)
  {
    hide Key, Stale;
    assert Disagrees(p, s, id, n);
  }

  // --- The rest of the invariant ---

  lemma QueueStep(p: Params, s: State, step: Step)
    requires QueueOk(s) && Enabled(s, step)
    ensures QueueOk(Act(p, s, step))
  {
    hide Key, ParseEventKey, Q.Queue.Valid;
    var q := s.queue;
    match step {
      case Enqueue => Q.QueueStaysValid(q, s.informer.key);
      case Fire(k) => WaitingIrrelevant(q, q.waiting - {k}); Q.QueueStaysValid(q.(waiting := q.waiting - {k}), k);
      case Pick => Q.QueueStaysValid(q, q.ready[0]);
      case Settle => Q.QueueStaysValid(q, s.worker.key);
      case Done => Q.QueueStaysValid(q, s.worker.key);
      case _ =>
    }
  }

  lemma WaitingIrrelevant(q: Q.Queue, waiting: set<string>)
    requires q.Valid()
    ensures q.(waiting := waiting).Valid()
  {}

  lemma CacheStep(p: Params, s: State, step: Step)
    requires CacheOk(s) && Enabled(s, step)
    ensures CacheOk(Act(p, s, step))
  {
    hide Key, ParseEventKey, RewriteWorkload, Listed;
  }

  lemma StoreStep(p: Params, s: State, step: Step)
    requires WorkerOk(p, s) && StoreOk(s) && Enabled(s, step) && Orderly(p, s, step)
    ensures StoreOk(Act(p, s, step))
  {
    hide Key, ParseEventKey, UniqueInWorkload, RewriteWorkload, OnTask, AddIsSafe, Stale, Pending;
    if step.Write? && UpToDate(s, step.id, s.worker.todo[step.id]) {
      RewriteKeepsUnique(s.worker.rewrite, s.cluster[step.id].workload);
    }
  }

  lemma RewriteKeepsUnique(r: Rewrite, w: Workload)
    requires UniqueInWorkload(w)
    ensures UniqueInWorkload(RewriteWorkload(r, w))
  {
    match r {
      case Put(d) =>
        ReplacedKeepsNames(w.initContainers, d);
        ReplacedKeepsNames(w.containers, d);
      case Drop(name) =>
        WithoutKeepsNames(w.initContainers, name);
        WithoutKeepsNames(w.containers, name);
    }
  }

  /** A justification outlasts every step that does not pick up a key. */
  lemma JustifiedStep(p: Params, s: State, step: Step, c: Container)
    requires Enabled(s, step) && !step.Pick? && Justified(p, s, c)
    ensures Justified(p, Act(p, s, step), c)
  {
    hide Key, ParseEventKey;
  }

  /** The worker is at the same rewrite as before, or at none, and the rewrite is still justified. */
  ghost predicate StaysOnTask(p: Params, s: State, t: State) {
    s.worker.Listing? || s.worker.Writing? ==>
      OnTask(p, t, s.worker.key, s.worker.namespace, s.worker.rewrite)
  }

  lemma TaskStep(p: Params, s: State, step: Step)
    requires WorkerOk(p, s) && Enabled(s, step)
    ensures StaysOnTask(p, s, Act(p, s, step))
  {
    hide Key, ParseEventKey, Act, Justified, Enabled;
    if (s.worker.Listing? || s.worker.Writing?) && s.worker.rewrite.Put? && s.worker.namespace == p.namespace {
      PickNeedsIdle(s, step);
      JustifiedStep(p, s, step, s.worker.rewrite.container);
    }
  }

  lemma PickNeedsIdle(s: State, step: Step)
    requires Enabled(s, step)
    ensures step.Pick? ==> s.worker.Idle?
  {}

  lemma WorkerStep(p: Params, s: State, step: Step)
    requires p.Valid() && Inv(p, s) && Enabled(s, step)
    ensures WorkerOk(p, Act(p, s, step))
  {
    hide Key, ParseEventKey, OnTask, Coverage, DoStart, DoList, DoWrite, DoAdvance, DoWriteTo;
    TaskStep(p, s, step);
    match step {
      case Start => StartOk(p, s);
      case List(ok) => ListOk(p, s, ok);
      case Write(id, reply) => WriteOk(p, s, id, reply);
      case Advance => AdvanceOk(p, s);
      case ForeignWrite(id, w) => ForeignOk(p, s, id, w);
      case ForeignDelete(id) => ForeignDeleteOk(p, s, id);
      case _ =>
    }
  }

  lemma ListOk(p: Params, s: State, ok: bool)
    requires StoreOk(s) && s.worker.Listing? && StaysOnTask(p, s, DoList(p, s, ok))
    ensures WorkerOk(p, DoList(p, s, ok))
  {
    hide OnTask, UniqueInWorkload;
  }

  lemma WriteOk(p: Params, s: State, id: Id, reply: Reply)
    requires WorkerOk(p, s) && s.worker.Writing? && id in s.worker.todo
    requires StaysOnTask(p, s, DoWrite(s, id, reply))
    ensures WorkerOk(p, DoWrite(s, id, reply))
  {
    hide OnTask, RewriteWorkload;
  }

  lemma AdvanceOk(p: Params, s: State)
    requires s.worker.Writing? && StaysOnTask(p, s, DoAdvance(s))
    ensures WorkerOk(p, DoAdvance(s))
  {
    hide OnTask;
  }

  lemma ForeignOk(p: Params, s: State, id: Id, w: Workload)
    requires WorkerOk(p, s) && StaysOnTask(p, s, DoWriteTo(s, id, w))
    ensures WorkerOk(p, DoWriteTo(s, id, w))
  {
    hide OnTask;
  }

  lemma ForeignDeleteOk(p: Params, s: State, id: Id)
    requires WorkerOk(p, s) && StaysOnTask(p, s, s.(cluster := s.cluster - {id}))
    ensures WorkerOk(p, s.(cluster := s.cluster - {id}))
  {
    hide OnTask;
  }

  lemma StartOk(p: Params, s: State)
    requires p.Valid() && CacheOk(s) && s.worker.Picked?
    ensures WorkerOk(p, DoStart(s))
  {
    hide Key, ParseEventKey;
  }

  lemma InvStep(p: Params, s: State, step: Step)
    requires p.Valid() && Inv(p, s) && Enabled(s, step) && Orderly(p, s, step)
    ensures Inv(p, Act(p, s, step))
  {
    var t := Act(p, s, step);
    hide Act, Disagrees, Covered, WorkerOk, StoreOk, CacheOk, QueueOk, Orderly, Enabled;
    forall id, n | n in t.known && Disagrees(p, t, id, n) ensures Covered(p, t, id, n) {
      CoverageStep(p, s, step, id, n);
    }
    WorkerStep(p, s, step);
    CacheStep(p, s, step);
    StoreStep(p, s, step);
    QueueStep(p, s, step);
  }

  /** In every state of every run, a labelled workload that disagrees with the cache about a name is going
      to be corrected: its Update or Delete key is queued, delayed, about to be queued, or in hand. */
  lemma {:induction false} RunKeepsInv(p: Params, states: seq<State>, steps: seq<Step>, i: nat)
    requires p.Valid() && Run(p, states, steps) && i <= |steps|
    ensures Inv(p, states[i])
  {
    if i > 0 {
      RunKeepsInv(p, states, steps, i - 1);
      assert Next(p, states[i - 1], steps[i - 1], states[i]);
      InvStep(p, states[i - 1], steps[i - 1]);
    }
  }

  /** Convergence: whenever the controller has nothing left to do, every labelled workload agrees with the
      cache about every name that was ever in it, however callbacks, failures, lost replies and foreign
      writes were interleaved. */
  lemma DrainedHasConverged(p: Params, states: seq<State>, steps: seq<Step>, i: nat, n: string)
    requires p.Valid() && Run(p, states, steps) && i <= |steps|
    requires Drained(states[i]) && n in states[i].known
    ensures Agrees(p, states[i], n)
  {
    RunKeepsInv(p, states, steps, i);
    RestAgrees(p, states[i], n);
  }

  lemma RestAgrees(p: Params, s: State, n: string)
    requires Inv(p, s) && Drained(s) && n in s.known
    ensures Agrees(p, s, n)
  {
    hide Key;
    forall id ensures !Disagrees(p, s, id, n) {
      assert forall key :: key in s.queue.dirty ==> key in s.queue.ready;
    }
  }

  // --- Adding a container ---

  /** What the controller does about an Add callback that meets it at rest. */
  function AfterAdded(p: Params, s: State, c: Container): State {
    var key := Key(Event(ADD, p.namespace, c.name));
    s.(cache := if c.name in s.cache then s.cache else s.cache[c.name := c],
       known := s.known + {c.name},
       queue := s.queue.(requeues := s.queue.requeues - {key}))
  }

  lemma AddedRunsThrough(p: Params, s: State, c: Container)
    requires p.Valid() && QueueOk(s) && Drained(s)
    ensures var s1 := DoAdded(p, s, c);
            var s2 := DoEnqueue(s1);
            && s2.queue.ready != []
            && var s3 := DoPick(s2);
            var s4 := DoStart(s3);
            && s4.worker.Finishing?
            && DoDone(DoSettle(s4)) == AfterAdded(p, s, c)
  {
    var e := Event(ADD, p.namespace, c.name);
    KeyRoundTrip(e);
    hide Key, ParseEventKey;
    DirtyIsReady(s.queue);
    assert [Key(e)][1..] == [];
  }

  lemma DirtyIsReady(q: Q.Queue)
    requires q.Valid() && q.ready == [] && q.processing == {}
    ensures q.dirty == {}
  {}

  /** What the controller does about the callback, step by step. */
  const ADD_STEPS := [Enqueue, Pick, Start, Settle, Done]

  lemma AddRunIsPossible(p: Params, s: State, c: Container)
    requires p.Valid() && QueueOk(s) && Drained(s)
    ensures Enabled(s, Added(c)) && Possible(p, DoAdded(p, s, c), ADD_STEPS)
    ensures After(p, DoAdded(p, s, c), ADD_STEPS) == AfterAdded(p, s, c) && Drained(AfterAdded(p, s, c))
  {
    hide DoStart, DoAdded, Possible, After, QueueOk;
    AddedRunsThrough(p, s, c);
    AddedShape(p, s, c);
    var s1 := DoAdded(p, s, c);
    var s2 := DoEnqueue(s1);
    var s3 := DoPick(s2);
    var s4 := DoStart(s3);
    var s5 := DoSettle(s4);
    assert [Done] + [] == [Done] && [Settle] + [Done] == [Settle, Done];
    assert [Start] + [Settle, Done] == [Start, Settle, Done];
    assert [Pick] + [Start, Settle, Done] == [Pick, Start, Settle, Done];
    assert [Enqueue] + [Pick, Start, Settle, Done] == ADD_STEPS;
    NoSteps(p, DoDone(s5));
    FirstStep(p, s5, Done, []);
    FirstStep(p, s4, Settle, [Done]);
    FirstStep(p, s3, Start, [Settle, Done]);
    FirstStep(p, s2, Pick, [Start, Settle, Done]);
    FirstStep(p, s1, Enqueue, [Pick, Start, Settle, Done]);
  }

  lemma NoSteps(p: Params, s: State)
    ensures Possible(p, s, []) && After(p, s, []) == s
  {}

  lemma FirstStep(p: Params, s: State, step: Step, rest: seq<Step>)
    requires Enabled(s, step) && Possible(p, Act(p, s, step), rest)
    ensures Possible(p, s, [step] + rest)
    ensures After(p, s, [step] + rest) == After(p, Act(p, s, step), rest)
  {
    hide Act, Enabled;
    assert ([step] + rest)[1..] == rest;
  }

  lemma AddedShape(p: Params, s: State, c: Container)
    ensures var t := DoAdded(p, s, c);
            t.informer.Enqueueing? && t.queue == s.queue && t.worker == s.worker
  {}

  /** From a state in which only one step of the controller's own is possible, and which is not at rest, a run
      goes on with that step. */
  lemma OnlyStep(p: Params, s: State, only: Step, steps: seq<Step>)
    requires Possible(p, s, steps) && (forall i :: 0 <= i < |steps| ==> !External(steps[i]))
    requires Drained(After(p, s, steps)) && !Drained(s)
    requires forall step :: Enabled(s, step) && !External(step) ==> step == only
    ensures steps != [] && steps[0] == only && Enabled(s, only)
    ensures Possible(p, Act(p, s, only), steps[1..]) && After(p, Act(p, s, only), steps[1..]) == After(p, s, steps)
  {
    hide Act, Enabled, Drained;
  }

  /** Left alone, the controller does nothing else about the callback. */
  lemma AddRunIsForced(p: Params, s: State, c: Container, steps: seq<Step>)
    requires p.Valid() && QueueOk(s) && Drained(s)
    requires Possible(p, DoAdded(p, s, c), steps) && forall i :: 0 <= i < |steps| ==> !External(steps[i])
    requires Drained(After(p, DoAdded(p, s, c), steps))
    ensures After(p, DoAdded(p, s, c), steps) == AfterAdded(p, s, c)
  {
    hide DoStart, DoAdded, Possible, After, AfterAdded, QueueOk;
    AddedRunsThrough(p, s, c);
    AddRunIsPossible(p, s, c);
    AddedShape(p, s, c);
    var s1 := DoAdded(p, s, c);
    OnlyStep(p, s1, Enqueue, steps);
    var s2 := DoEnqueue(s1);
    OnlyStep(p, s2, Pick, steps[1..]);
    var s3 := DoPick(s2);
    OnlyStep(p, s3, Start, steps[1..][1..]);
    var s4 := DoStart(s3);
    OnlyStep(p, s4, Settle, steps[1..][1..][1..]);
    var s5 := DoSettle(s4);
    OnlyStep(p, s5, Done, steps[1..][1..][1..][1..]);
    RestStays(p, DoDone(s5), steps[1..][1..][1..][1..][1..]);
  }

  /** A controller at rest that is left alone stays as it is. */
  lemma RestStays(p: Params, s: State, steps: seq<Step>)
    requires Drained(s) && Possible(p, s, steps) && forall i :: 0 <= i < |steps| ==> !External(steps[i])
    ensures steps == [] && After(p, s, steps) == s
  {}

  /** Workloads are not corrected on an Add event. A controller at rest that is told of a new container, and
      is left alone until it is at rest again, agrees with the workloads about it exactly when the name was
      managed before or no labelled workload holds a different container of that name already. */
  lemma AddConvergesIffSafe(p: Params, s: State, c: Container, steps: seq<Step>)
    requires p.Valid() && Inv(p, s) && Drained(s)
    requires Possible(p, s, [Added(c)] + steps) && forall i :: 0 <= i < |steps| ==> !External(steps[i])
    requires Drained(After(p, s, [Added(c)] + steps))
    ensures Agrees(p, After(p, s, [Added(c)] + steps), c.name) <==> AddIsSafe(p, s, c)
  {
    hide Key, DoAdded;
    assert ([Added(c)] + steps)[1..] == steps;
    AddRunIsForced(p, s, c, steps);
    AfterAddedAgreesIff(p, s, c);
  }

  lemma AfterAddedAgreesIff(p: Params, s: State, c: Container)
    requires p.Valid() && Inv(p, s) && Drained(s)
    ensures Agrees(p, AfterAdded(p, s, c), c.name) <==> AddIsSafe(p, s, c)
  {
    hide Key;
    var t, n := AfterAdded(p, s, c), c.name;
    if n in s.known {
      forall id | id in s.cluster
        ensures Stale(s.cluster[id].workload, t.cache, n) ==> Stale(s.cluster[id].workload, s.cache, n)
      {
        GrownCache(s.cluster[id].workload, s.cache, t.cache, n);
      }
      DirtyIsReady(s.queue);
      assert forall id :: Disagrees(p, t, id, n) ==> Disagrees(p, s, id, n);
    } else {
      assert n !in s.cache;
      forall id | id in s.cluster && Managed(p, id, s.cluster[id].workload)
        ensures Stale(s.cluster[id].workload, map[n := c], n) <==> Disagrees(p, t, id, n)
      {
        SameStale(s.cluster[id].workload, map[n := c], t.cache, n);
      }
    }
  }

  lemma SameStale(w: Workload, a: map<string, Container>, b: map<string, Container>, n: string)
    requires n in a && n in b && a[n] == b[n]
    ensures Stale(w, a, n) <==> Stale(w, b, n)
  {}
}
