/** What any series of attempts at one event (internal/ctrl/worker/crd_worker.go:107-183) leaves behind, and when
    the first one without error has the effect of one undisturbed attempt. */
module RetryConvergence {
  import opened Containers
  import opened CrdWorkers
  import opened EventKeys
  import opened Wrappers

  /** One attempt: the cache it finds and the API calls that fail. */
  datatype Try = Try(cache: map<string, Container>, faults: Faults)

  /** The cluster after a series of attempts at one event. */
  function After(c: Cluster, labelKey: string, e: Event, tries: seq<Try>): Cluster {
    if tries == [] then c
    else
      var t := tries[|tries| - 1];
      ProcessEvent(t.cache, After(c, labelKey, e, tries[..|tries| - 1]), labelKey, e, t.faults).0
  }

  /** Whether the last of a series of attempts reported an error. */
  predicate LastFailed(c: Cluster, labelKey: string, e: Event, tries: seq<Try>)
    requires tries != []
  {
    var t := tries[|tries| - 1];
    ProcessEvent(t.cache, After(c, labelKey, e, tries[..|tries| - 1]), labelKey, e, t.faults).1
  }

  /** The handlers cache every container under its own name. */
  predicate KeyedByName(cache: map<string, Container>) {
    forall n :: n in cache ==> cache[n].name == n
  }

  /** What an attempt sets out to do: nothing for an Update of a container that is no longer cached, and for
      any event that is neither an Update nor a Delete. */
  function Intent(cache: map<string, Container>, e: Event): Option<Rewrite> {
    if e.eventType == UPDATE && e.containerName in cache then Some(Put(cache[e.containerName]))
    else if e.eventType == DELETE then Some(Drop(e.containerName))
    else None
  }

  predicate InScope(id: Id, w: Workload, namespace: string, labelKey: string) {
    id.namespace == namespace && labelKey in w.labels
  }

  /** Whether an attempt carries an update of this workload out: both lists it depends on succeed, and the
      update is not rejected. */
  predicate GetsThrough(f: Faults, id: Id) {
    !f.listDeployments && (id.kind == StatefulSet ==> !f.listStatefulSets) && id !in f.rejected
  }

  /** The last rewrite of a series of attempts that was carried out on a workload in scope. */
  function LastThrough(e: Event, tries: seq<Try>, id: Id): Option<Rewrite> {
    if tries == [] then None
    else
      var t := tries[|tries| - 1];
      if Intent(t.cache, e).Some? && GetsThrough(t.faults, id) then Intent(t.cache, e)
      else LastThrough(e, tries[..|tries| - 1], id)
  }

  function Rewritten(c: Cluster, namespace: string, labelKey: string, r: Rewrite): Cluster {
    map id | id in c :: if InScope(id, c[id], namespace, labelKey) then RewriteWorkload(r, c[id]) else c[id]
  }

  /** One attempt, workload by workload. */
  lemma AttemptEffect(c: Cluster, namespace: string, labelKey: string, r: Rewrite, f: Faults, id: Id)
    requires id in c
    ensures var d := Attempt(c, namespace, labelKey, r, f).0;
            && id in d
            && d[id] == if InScope(id, c[id], namespace, labelKey) && GetsThrough(f, id) then RewriteWorkload(r, c[id])
                        else c[id]
  {
    hide RewriteWorkload;
  }

  lemma AttemptKeepsIds(c: Cluster, namespace: string, labelKey: string, r: Rewrite, f: Faults)
    ensures Attempt(c, namespace, labelKey, r, f).0.Keys == c.Keys
  {}

  /** A list fails, or an update of a workload in scope. */
  ghost predicate SomethingFails(c: Cluster, namespace: string, labelKey: string, f: Faults) {
    || f.listDeployments || f.listStatefulSets
    || exists id :: id in c && InScope(id, c[id], namespace, labelKey) && id in f.rejected + f.lost
  }

  /** Deployments that have been rewritten do not hide or add StatefulSets. */
  lemma SecondPassSelects(
      c: Cluster, namespace: string, labelKey: string, r: Rewrite, rejected: set<Id>, id: Id)
    requires id in c
    ensures var d := Pass(c, Deployment, namespace, labelKey, r, rejected);
            id in d && (Selected(id, d[id], StatefulSet, namespace, labelKey)
                        <==> Selected(id, c[id], StatefulSet, namespace, labelKey))
  {
    hide RewriteWorkload;
  }

  lemma AttemptErrorIff(c: Cluster, namespace: string, labelKey: string, r: Rewrite, f: Faults)
    ensures Attempt(c, namespace, labelKey, r, f).1 <==> SomethingFails(c, namespace, labelKey, f)
  {
    hide Pass;
    var d := Pass(c, Deployment, namespace, labelKey, r, f.rejected);
    PassKeepsIds(c, namespace, labelKey, r, f.rejected);
    forall id | id in c
      ensures Selected(id, d[id], StatefulSet, namespace, labelKey)
         <==> Selected(id, c[id], StatefulSet, namespace, labelKey)
    {
      SecondPassSelects(c, namespace, labelKey, r, f.rejected, id);
    }
    forall id | id in c
      ensures InScope(id, c[id], namespace, labelKey)
         <==> Selected(id, c[id], Deployment, namespace, labelKey)
              || Selected(id, c[id], StatefulSet, namespace, labelKey)
    {}
  }

  lemma PassKeepsIds(c: Cluster, namespace: string, labelKey: string, r: Rewrite, rejected: set<Id>)
    ensures Pass(c, Deployment, namespace, labelKey, r, rejected).Keys == c.Keys
  {}

  /** An attempt reports an error exactly if it sets out to do something and a call it depends on fails. */
  lemma ErrorIff(cache: map<string, Container>, c: Cluster, labelKey: string, e: Event, f: Faults)
    ensures ProcessEvent(cache, c, labelKey, e, f).1
       <==> Intent(cache, e).Some? && SomethingFails(c, e.namespace, labelKey, f)
  {
    hide Attempt, SomethingFails;
    if Intent(cache, e).Some? {
      AttemptErrorIff(c, e.namespace, labelKey, Intent(cache, e).value, f);
    }
  }

  lemma NoErrorMeansThrough(c: Cluster, namespace: string, labelKey: string, r: Rewrite, f: Faults, id: Id)
    requires id in c && InScope(id, c[id], namespace, labelKey) && !Attempt(c, namespace, labelKey, r, f).1
    ensures GetsThrough(f, id)
  {
    hide Attempt;
    AttemptErrorIff(c, namespace, labelKey, r, f);
  }

  lemma NoFaultsNoError(c: Cluster, namespace: string, labelKey: string, r: Rewrite)
    ensures !Attempt(c, namespace, labelKey, r, NO_FAULTS).1
  {
    AttemptErrorIff(c, namespace, labelKey, r, NO_FAULTS);
  }

  /** An attempt that reports no error has rewritten every workload in scope, or has set out to do nothing. */
  lemma CleanAttempt(cache: map<string, Container>, c: Cluster, labelKey: string, e: Event, f: Faults)
    requires !ProcessEvent(cache, c, labelKey, e, f).1
    ensures ProcessEvent(cache, c, labelKey, e, f).0
         == match Intent(cache, e)
            case Some(r) => Rewritten(c, e.namespace, labelKey, r)
            case None => c
  {
    hide RewriteWorkload, Attempt;
    if Intent(cache, e).Some? {
      var r := Intent(cache, e).value;
      AttemptKeepsIds(c, e.namespace, labelKey, r, f);
      forall id | id in c
        ensures Attempt(c, e.namespace, labelKey, r, f).0[id] == Rewritten(c, e.namespace, labelKey, r)[id]
      {
        AttemptEffect(c, e.namespace, labelKey, r, f, id);
        if InScope(id, c[id], e.namespace, labelKey) {
          NoErrorMeansThrough(c, e.namespace, labelKey, r, f, id);
        }
      }
    }
  }

  /** What a workload is after the attempts: untouched out of scope, and otherwise the original with the last
      rewrite that was carried out. */
  function Shown(w: Workload, labelKey: string, e: Event, tries: seq<Try>, id: Id): Workload {
    if InScope(id, w, e.namespace, labelKey) && LastThrough(e, tries, id).Some? then
      RewriteWorkload(LastThrough(e, tries, id).value, w)
    else w
  }

  lemma IntentsShareKey(a: map<string, Container>, b: map<string, Container>, e: Event)
    requires KeyedByName(a) && KeyedByName(b) && Intent(a, e).Some? && Intent(b, e).Some?
    ensures SameKey(Intent(a, e).value, Intent(b, e).value)
  {}

  lemma {:induction false} LastThroughIsIntent(e: Event, tries: seq<Try>, id: Id)
    requires forall i :: 0 <= i < |tries| ==> KeyedByName(tries[i].cache)
    requires LastThrough(e, tries, id).Some?
    ensures exists i :: 0 <= i < |tries| && Intent(tries[i].cache, e) == LastThrough(e, tries, id)
  {
    hide Intent, KeyedByName;
    var t := tries[|tries| - 1];
    if !(Intent(t.cache, e).Some? && GetsThrough(t.faults, id)) {
      LastThroughIsIntent(e, tries[..|tries| - 1], id);
    }
  }

  /** An earlier rewrite that was carried out is overwritten by a later one without trace. */
  lemma ShownStep(w: Workload, labelKey: string, e: Event, tries: seq<Try>, id: Id)
    requires tries != [] && forall i :: 0 <= i < |tries| ==> KeyedByName(tries[i].cache)
    ensures var before, t := tries[..|tries| - 1], tries[|tries| - 1];
            var x := Shown(w, labelKey, e, before, id);
            && (InScope(id, x, e.namespace, labelKey) <==> InScope(id, w, e.namespace, labelKey))
            && Shown(w, labelKey, e, tries, id)
               == if InScope(id, x, e.namespace, labelKey) && Intent(t.cache, e).Some? && GetsThrough(t.faults, id)
                  then RewriteWorkload(Intent(t.cache, e).value, x) else x
  {
    hide Intent, KeyedByName, GetsThrough, Replaced, Without;
    var before, t := tries[..|tries| - 1], tries[|tries| - 1];
    if LastThrough(e, before, id).Some? && Intent(t.cache, e).Some? {
      LastThroughIsIntent(e, before, id);
      var i :| 0 <= i < |before| && Intent(before[i].cache, e) == LastThrough(e, before, id);
      assert KeyedByName(tries[i].cache);
      IntentsShareKey(tries[i].cache, t.cache, e);
      RewriteOverwrites(LastThrough(e, before, id).value, Intent(t.cache, e).value, w);
    }
  }

  /** After any attempts, whatever failed, a workload in scope shows the last rewrite that was carried out on
      it and no trace of the others; all other workloads are untouched. */
  lemma {:induction false} EachShowsItsLastRewrite(c: Cluster, labelKey: string, e: Event, tries: seq<Try>)
    requires forall i :: 0 <= i < |tries| ==> KeyedByName(tries[i].cache)
    ensures After(c, labelKey, e, tries) == map id | id in c :: Shown(c[id], labelKey, e, tries, id)
  {
    hide RewriteWorkload, Attempt, Shown, GetsThrough, InScope, KeyedByName;
    if tries == [] {
      forall id | id in c ensures Shown(c[id], labelKey, e, tries, id) == c[id] {
        NothingShown(c[id], labelKey, e, id);
      }
    } else {
      var before, t := tries[..|tries| - 1], tries[|tries| - 1];
      var d := After(c, labelKey, e, before);
      EachShowsItsLastRewrite(c, labelKey, e, before);
      forall id | id in c ensures ShownNext(d, labelKey, e, t, id) == Shown(c[id], labelKey, e, tries, id) {
        ShownStep(c[id], labelKey, e, tries, id);
      }
      AttemptShows(d, labelKey, e, t);
    }
  }

  lemma NothingShown(w: Workload, labelKey: string, e: Event, id: Id)
    ensures Shown(w, labelKey, e, [], id) == w
  {}

  function ShownNext(d: Cluster, labelKey: string, e: Event, t: Try, id: Id): Workload
    requires id in d
  {
    if InScope(id, d[id], e.namespace, labelKey) && Intent(t.cache, e).Some? && GetsThrough(t.faults, id)
    then RewriteWorkload(Intent(t.cache, e).value, d[id]) else d[id]
  }

  lemma AttemptShows(d: Cluster, labelKey: string, e: Event, t: Try)
    ensures ProcessEvent(t.cache, d, labelKey, e, t.faults).0 == map id | id in d :: ShownNext(d, labelKey, e, t, id)
  {
    hide RewriteWorkload, Attempt, GetsThrough, InScope;
    if Intent(t.cache, e).Some? {
      AttemptKeepsIds(d, e.namespace, labelKey, Intent(t.cache, e).value, t.faults);
      forall id | id in d
        ensures Attempt(d, e.namespace, labelKey, Intent(t.cache, e).value, t.faults).0[id]
             == ShownNext(d, labelKey, e, t, id)
      {
        AttemptEffect(d, e.namespace, labelKey, Intent(t.cache, e).value, t.faults, id);
      }
    }
  }

  /** No rewrite carried out so far has made a workload other than it was. */
  ghost predicate NoneChanged(c: Cluster, labelKey: string, e: Event, tries: seq<Try>) {
    forall id :: id in c && InScope(id, c[id], e.namespace, labelKey) && LastThrough(e, tries, id).Some? ==>
      RewriteWorkload(LastThrough(e, tries, id).value, c[id]) == c[id]
  }

  lemma UnchangedIff(c: Cluster, labelKey: string, e: Event, tries: seq<Try>)
    requires forall i :: 0 <= i < |tries| ==> KeyedByName(tries[i].cache)
    ensures After(c, labelKey, e, tries) == c <==> NoneChanged(c, labelKey, e, tries)
  {
    hide RewriteWorkload, InScope, LastThrough, KeyedByName;
    EachShowsItsLastRewrite(c, labelKey, e, tries);
    var d := After(c, labelKey, e, tries);
    assert d == c <==> forall id :: id in c ==> d[id] == c[id];
    assert forall id :: id in c ==> d[id] == Shown(c[id], labelKey, e, tries, id);
  }

  /** Whatever failed before, once an attempt reports no error the cluster is every labelled workload of the
      namespace rewritten with the last value read, and all else untouched; or, if that attempt found the
      container of its Update no longer cached, it is what the earlier attempts left. It is what one
      undisturbed attempt with the same cache makes of the original cluster exactly if the attempt set out to
      rewrite, or none of the earlier rewrites that got through changed its workload. */
  lemma FirstSuccessConverges(c: Cluster, labelKey: string, e: Event, tries: seq<Try>)
    requires tries != [] && forall i :: 0 <= i < |tries| ==> KeyedByName(tries[i].cache)
    requires !LastFailed(c, labelKey, e, tries)
    ensures var before, t := tries[..|tries| - 1], tries[|tries| - 1];
            && After(c, labelKey, e, tries)
               == (match Intent(t.cache, e)
                   case Some(r) => Rewritten(c, e.namespace, labelKey, r)
                   case None => After(c, labelKey, e, before))
            && (After(c, labelKey, e, tries) == ProcessEvent(t.cache, c, labelKey, e, NO_FAULTS).0
                <==> Intent(t.cache, e).Some? || NoneChanged(c, labelKey, e, before))
  {
    hide Rewritten, NoneChanged, KeyedByName;
    var before, t := tries[..|tries| - 1], tries[|tries| - 1];
    var d := After(c, labelKey, e, before);
    CleanAttempt(t.cache, d, labelKey, e, t.faults);
    NoFaultsNoErrorAtAll(t.cache, c, labelKey, e);
    CleanAttempt(t.cache, c, labelKey, e, NO_FAULTS);
    if Intent(t.cache, e).Some? {
      LastRewriteCovers(c, labelKey, e, tries);
    } else {
      UnchangedIff(c, labelKey, e, before);
    }
  }

  lemma NoFaultsNoErrorAtAll(cache: map<string, Container>, c: Cluster, labelKey: string, e: Event)
    ensures !ProcessEvent(cache, c, labelKey, e, NO_FAULTS).1
  {
    hide Attempt;
    if Intent(cache, e).Some? {
      NoFaultsNoError(c, e.namespace, labelKey, Intent(cache, e).value);
    }
  }

  /** Rewriting what the earlier attempts left is rewriting the original. */
  lemma LastRewriteCovers(c: Cluster, labelKey: string, e: Event, tries: seq<Try>)
    requires tries != [] && forall i :: 0 <= i < |tries| ==> KeyedByName(tries[i].cache)
    requires Intent(tries[|tries| - 1].cache, e).Some?
    ensures var r := Intent(tries[|tries| - 1].cache, e).value;
            Rewritten(After(c, labelKey, e, tries[..|tries| - 1]), e.namespace, labelKey, r)
            == Rewritten(c, e.namespace, labelKey, r)
  {
    hide After, Replaced, Without;
    var before, t := tries[..|tries| - 1], tries[|tries| - 1];
    var r := Intent(t.cache, e).value;
    EachShowsItsLastRewrite(c, labelKey, e, before);
    forall id | id in c
      ensures var x := Shown(c[id], labelKey, e, before, id);
              if InScope(id, c[id], e.namespace, labelKey)
              then InScope(id, x, e.namespace, labelKey) && RewriteWorkload(r, x) == RewriteWorkload(r, c[id])
              else x == c[id]
    {
      if LastThrough(e, before, id).Some? {
        LastThroughIsIntent(e, before, id);
        var i :| 0 <= i < |before| && Intent(before[i].cache, e) == LastThrough(e, before, id);
        IntentsShareKey(before[i].cache, t.cache, e);
        RewriteOverwrites(LastThrough(e, before, id).value, r, c[id]);
      }
    }
  }

  /** Even attempts that fail leave every workload outside the namespace or without the label alone. */
  lemma OthersUntouched(c: Cluster, labelKey: string, e: Event, tries: seq<Try>, id: Id)
    requires forall i :: 0 <= i < |tries| ==> KeyedByName(tries[i].cache)
    requires id in c && !InScope(id, c[id], e.namespace, labelKey)
    ensures id in After(c, labelKey, e, tries) && After(c, labelKey, e, tries)[id] == c[id]
  {
    EachShowsItsLastRewrite(c, labelKey, e, tries);
  }

  /** An Update that is rejected for one of two workloads, and finds its container gone when it is retried,
      ends without error and leaves the two apart: no undisturbed attempt does that. */
  lemma VanishedContainerStrandsWorkloads(a: Id, b: Id, w: Workload, v: Container, labelKey: string)
    requires a != b && a.kind == b.kind == Deployment && a.namespace == b.namespace && labelKey in w.labels
    requires RewriteWorkload(Put(v), w) != w
    ensures var c, e := map[a := w, b := w], Event(UPDATE, a.namespace, v.name);
            var tries := [Try(map[v.name := v], NO_FAULTS.(rejected := {b})), Try(map[], NO_FAULTS)];
            && !LastFailed(c, labelKey, e, tries)
            && After(c, labelKey, e, tries) == map[a := RewriteWorkload(Put(v), w), b := w]
            && After(c, labelKey, e, tries) != c
            && After(c, labelKey, e, tries) != Rewritten(c, e.namespace, labelKey, Put(v))
  {
    hide RewriteWorkload, After;
    var c, e := map[a := w, b := w], Event(UPDATE, a.namespace, v.name);
    var t1, t2 := Try(map[v.name := v], NO_FAULTS.(rejected := {b})), Try(map[], NO_FAULTS);
    assert [t1, t2][..1] == [t1] && [t1][..0] == [];
    assert LastThrough(e, [t1], a) == Some(Put(v)) && LastThrough(e, [t1], b) == None;
    assert LastThrough(e, [t1, t2], a) == Some(Put(v)) && LastThrough(e, [t1, t2], b) == None;
    EachShowsItsLastRewrite(c, labelKey, e, [t1, t2]);
    var d := After(c, labelKey, e, [t1, t2]);
    assert d[a] == RewriteWorkload(Put(v), w) && d[b] == w;
    assert c[a] == w && Rewritten(c, e.namespace, labelKey, Put(v))[b] == RewriteWorkload(Put(v), w);
  }
}
