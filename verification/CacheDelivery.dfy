/** The cache of the controller against the callbacks delivered: in every run it holds what the callbacks of
    internal/ctrl/worker/crd_handlers.go:24-74 last said, and a controller at rest has brought the workloads there. */
module CacheDelivery {
  import opened Containers
  import opened CrdWorkers
  import opened Wrappers
  import opened Controller
  import opened ControllerProof
  import opened ControllerProgress
  import H = CrdHandlers

  // --- The callback steps are the handlers ---

  /** A callback step, and the queueing that follows it if there is something to queue, with nothing in between. */
  function CallbackDone(s: State): State {
    if s.informer.Enqueueing? then DoEnqueue(s) else s
  }

  /** The step an object of the namespace leads to. */
  lemma CallbacksAreHandlers(p: Params, s: State, c: Container)
    requires s.informer.Quiet?
    ensures var obj := H.Resource(p.namespace, c);
            var t, effect := CallbackDone(Act(p, s, Added(c))), H.AddedEffect(s.cache, obj);
            t.cache == effect.cache && t.queue == H.Queued(s.queue, effect.key) && t.informer.Quiet?
    ensures var obj := H.Resource(p.namespace, c);
            var t, effect := CallbackDone(Act(p, s, Updated(c))), H.UpdatedEffect(s.cache, obj);
            t.cache == effect.cache && t.queue == H.Queued(s.queue, effect.key) && t.informer.Quiet?
    ensures var obj := H.Resource(p.namespace, c);
            var t, effect := CallbackDone(Act(p, s, Deleted(c.name))), H.DeletedEffect(s.cache, obj);
            t.cache == effect.cache && t.queue == H.Queued(s.queue, effect.key) && t.informer.Quiet?
  {}

  // --- What was delivered ---

  function NameOf(step: Step): Option<string> {
    match step
    case Added(c) => Some(c.name)
    case Updated(c) => Some(c.name)
    case Deleted(n) => Some(n)
    case _ => None
  }

  /** The container of a name, as the callbacks up to now tell: the first addition counts, then the updates,
      until it is deleted. */
  function Delivered(steps: seq<Step>, n: string): Option<Container> {
    if steps == [] then None
    else
      var before, last := Delivered(steps[..|steps| - 1], n), steps[|steps| - 1];
      if NameOf(last) != Some(n) then before
      else
        match last
        case Added(c) => if before.Some? then before else Some(c)
        case Updated(c) => if before.Some? then Some(c) else None
        case _ => None
  }

  lemma CacheStepDelivers(p: Params, s: State, step: Step, n: string)
    requires Enabled(s, step)
    ensures var t := Act(p, s, step);
            var was := if n in s.cache then Some(s.cache[n]) else None;
            (if n in t.cache then Some(t.cache[n]) else None)
            == if NameOf(step) != Some(n) then was
               else match step
                    case Added(c) => if was.Some? then was else Some(c)
                    case Updated(c) => if was.Some? then Some(c) else None
                    case _ => None
  {
    hide Listed, RewriteWorkload;
  }

  /** In every state of every run the cache holds, for every name, what was delivered last. */
  lemma {:induction false} CacheIsDelivered(p: Params, states: seq<State>, steps: seq<Step>, i: nat, n: string)
    requires Run(p, states, steps) && i <= |steps|
    ensures Delivered(steps[..i], n) == if n in states[i].cache then Some(states[i].cache[n]) else None
  {
    if i > 0 {
      CacheIsDelivered(p, states, steps, i - 1, n);
      assert Next(p, states[i - 1], steps[i - 1], states[i]);
      assert steps[..i][..i - 1] == steps[..i - 1];
      CacheStepDelivers(p, states[i - 1], steps[i - 1], n);
    }
  }

  /** No callback about the name that could change its entry, from step i on and before step j. */
  predicate Untouched(steps: seq<Step>, i: nat, j: nat, n: string)
    requires i <= j <= |steps|
  {
    forall k :: i <= k < j ==> steps[k] != Deleted(n) && !(steps[k].Updated? && steps[k].container.name == n)
  }

  lemma {:induction false} DeliveredStays(steps: seq<Step>, i: nat, j: nat, n: string)
    requires i <= j <= |steps| && Delivered(steps[..i], n).Some? && Untouched(steps, i, j, n)
    ensures Delivered(steps[..j], n) == Delivered(steps[..i], n)
    decreases j
  {
    if i < j {
      assert steps[..j][..j - 1] == steps[..j - 1];
      DeliveredStays(steps, i, j - 1, n);
    }
  }

  lemma {:induction false} AbsentStays(steps: seq<Step>, i: nat, j: nat, n: string)
    requires i <= j <= |steps| && Delivered(steps[..i], n).None?
    requires forall k :: i <= k < j ==> !(steps[k].Added? && steps[k].container.name == n)
    ensures Delivered(steps[..j], n).None?
    decreases j
  {
    if i < j {
      assert steps[..j][..j - 1] == steps[..j - 1];
      AbsentStays(steps, i, j - 1, n);
    }
  }

  /** An update of a cached container is what the cache holds until the next update or deletion of the name. */
  lemma UpdateIsKept(p: Params, states: seq<State>, steps: seq<Step>, i: nat, j: nat)
    requires Run(p, states, steps) && i < j <= |steps|
    requires steps[i].Updated? && steps[i].container.name in states[i].cache
    requires Untouched(steps, i + 1, j, steps[i].container.name)
    ensures var c := steps[i].container; c.name in states[j].cache && states[j].cache[c.name] == c
  {
    var n := steps[i].container.name;
    CacheIsDelivered(p, states, steps, i, n);
    assert steps[..i + 1][..i] == steps[..i];
    DeliveredStays(steps, i + 1, j, n);
    CacheIsDelivered(p, states, steps, j, n);
  }

  /** An addition of a name that is not cached is what the cache holds until the next update or deletion of the
      name; an addition of a cached name leaves its entry as it is. */
  lemma AdditionIsKept(p: Params, states: seq<State>, steps: seq<Step>, i: nat, j: nat)
    requires Run(p, states, steps) && i < j <= |steps|
    requires steps[i].Added? && Untouched(steps, i + 1, j, steps[i].container.name)
    ensures var c := steps[i].container;
            && c.name in states[j].cache
            && states[j].cache[c.name] == if c.name in states[i].cache then states[i].cache[c.name] else c
  {
    var n := steps[i].container.name;
    CacheIsDelivered(p, states, steps, i, n);
    assert steps[..i + 1][..i] == steps[..i];
    DeliveredStays(steps, i + 1, j, n);
    CacheIsDelivered(p, states, steps, j, n);
  }

  /** A deleted name is not cached until it is added again. */
  lemma DeletionIsKept(p: Params, states: seq<State>, steps: seq<Step>, i: nat, j: nat)
    requires Run(p, states, steps) && i < j <= |steps| && steps[i].Deleted?
    requires forall k :: i < k < j ==> !(steps[k].Added? && steps[k].container.name == steps[i].name)
    ensures steps[i].name !in states[j].cache
  {
    var n := steps[i].name;
    assert steps[..i + 1][..i] == steps[..i];
    AbsentStays(steps, i + 1, j, n);
    CacheIsDelivered(p, states, steps, j, n);
  }

  // --- Convergence to what was delivered ---

  /** Every labelled workload holds, under this name, nothing but what was delivered. */
  ghost predicate ShowsDelivered(p: Params, s: State, steps: seq<Step>, n: string) {
    forall id, d | id in s.cluster && Managed(p, id, s.cluster[id].workload)
                   && Holds(s.cluster[id].workload, d) && d.name == n :: Delivered(steps, n) == Some(d)
  }

  ghost predicate EverAdded(steps: seq<Step>, n: string) {
    exists k :: 0 <= k < |steps| && steps[k].Added? && steps[k].container.name == n
  }

  lemma {:induction false} AddedIsKnown(p: Params, states: seq<State>, steps: seq<Step>, i: nat, k: nat)
    requires Run(p, states, steps) && k < i <= |steps| && steps[k].Added?
    ensures steps[k].container.name in states[i].known
  {
    assert Next(p, states[i - 1], steps[i - 1], states[i]);
    if k < i - 1 {
      AddedIsKnown(p, states, steps, i - 1, k);
      KnownGrows(p, states[i - 1], steps[i - 1]);
    }
  }

  lemma KnownGrows(p: Params, s: State, step: Step)
    requires Enabled(s, step)
    ensures s.known <= Act(p, s, step).known
  {
    hide Listed, RewriteWorkload;
  }

  lemma AgreementShowsDelivered(p: Params, s: State, steps: seq<Step>, n: string)
    requires Agrees(p, s, n)
    requires Delivered(steps, n) == if n in s.cache then Some(s.cache[n]) else None
    ensures ShowsDelivered(p, s, steps, n)
  {
    forall id, d | id in s.cluster && Managed(p, id, s.cluster[id].workload)
                   && Holds(s.cluster[id].workload, d) && d.name == n
      ensures Delivered(steps, n) == Some(d)
    {
      assert !Disagrees(p, s, id, n);
    }
  }

  /** Whenever the controller has nothing left to do, every labelled workload holds, under every name that was
      ever added, the container that was delivered last, and none if it was deleted since. */
  lemma RestShowsDelivered(p: Params, states: seq<State>, steps: seq<Step>, i: nat, n: string)
    requires p.Valid() && Run(p, states, steps) && i <= |steps|
    requires Drained(states[i]) && EverAdded(steps[..i], n)
    ensures ShowsDelivered(p, states[i], steps[..i], n)
  {
    var k :| 0 <= k < |steps[..i]| && steps[..i][k].Added? && steps[..i][k].container.name == n;
    AddedIsKnown(p, states, steps, i, k);
    DrainedHasConverged(p, states, steps, i, n);
    CacheIsDelivered(p, states, steps, i, n);
    AgreementShowsDelivered(p, states[i], steps[..i], n);
  }

  /** An update of a cached container is what every labelled workload holds under its name whenever the controller
      has nothing left to do, until the next update or deletion of the name. */
  lemma UpdateReachesWorkloads(p: Params, states: seq<State>, steps: seq<Step>, i: nat, j: nat, id: Id, d: Container)
    requires p.Valid() && Run(p, states, steps) && i < j <= |steps| && Drained(states[j])
    requires steps[i].Updated? && steps[i].container.name in states[i].cache
    requires Untouched(steps, i + 1, j, steps[i].container.name)
    requires id in states[j].cluster && Managed(p, id, states[j].cluster[id].workload)
    requires Holds(states[j].cluster[id].workload, d) && d.name == steps[i].container.name
    ensures d == steps[i].container
  {
    hide Holds, Untouched;
    var n := d.name;
    UpdateIsKept(p, states, steps, i, j);
    CachedIsKnown(p, states, steps, j, n);
    DrainedHasConverged(p, states, steps, j, n);
    assert !Disagrees(p, states[j], id, n);
  }

  lemma CachedIsKnown(p: Params, states: seq<State>, steps: seq<Step>, j: nat, n: string)
    requires p.Valid() && Run(p, states, steps) && j <= |steps| && n in states[j].cache
    ensures n in states[j].known
  {
    RunKeepsInv(p, states, steps, j);
  }

  lemma {:induction false} OwnStepsDeliverNothing(p: Params, s: State, more: seq<Step>, n: string)
    requires Possible(p, s, more) && forall step :: step in more ==> Undisturbed(step)
    ensures var t := After(p, s, more);
            (n in t.cache <==> n in s.cache) && (n in s.cache ==> t.cache[n] == s.cache[n]) && t.known == s.known
    decreases more
  {
    hide Act, Enabled;
    if more != [] {
      assert more[0] in more;
      OwnStepDeliversNothing(p, s, more[0]);
      OwnStepsDeliverNothing(p, Act(p, s, more[0]), more[1..], n);
    }
  }

  lemma OwnStepDeliversNothing(p: Params, s: State, step: Step)
    requires Enabled(s, step) && Undisturbed(step)
    ensures Act(p, s, step).cache == s.cache && Act(p, s, step).known == s.known
  {
    hide Listed, RewriteWorkload;
  }

  /** Once nobody interferes and no call fails, the bounded number of steps that are left ends with every
      labelled workload showing what was delivered. */
  lemma ConvergesToDelivered(p: Params, states: seq<State>, history: seq<Step>, more: seq<Step>, n: string)
    requires p.Valid() && Run(p, states, history) && EverAdded(history, n)
    requires Possible(p, states[|history|], more) && forall step :: step in more ==> Undisturbed(step)
    ensures var t := After(p, states[|history|], more);
            && |more| <= Measure(states[|history|])
            && (Drained(t) || exists step :: Enabled(t, step) && Undisturbed(step))
            && (Drained(t) ==> ShowsDelivered(p, t, history, n))
  {
    hide Measure, Undisturbed;
    var s, t := states[|history|], After(p, states[|history|], more);
    ConvergesOnceUndisturbed(p, states, history, more);
    if Drained(t) {
      var k :| 0 <= k < |history| && history[k].Added? && history[k].container.name == n;
      AddedIsKnown(p, states, history, |history|, k);
      OwnStepsDeliverNothing(p, s, more, n);
      assert history[..|history|] == history;
      CacheIsDelivered(p, states, history, |history|, n);
      AgreementShowsDelivered(p, t, history, n);
    }
  }
}
