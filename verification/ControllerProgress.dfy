/** Once callbacks, other writers and failures have stopped, the controller comes to rest within a bounded
    number of steps, and has then converged. */
module ControllerProgress {
  import opened Containers
  import opened CrdWorkers
  import opened EventKeys
  import opened Controller
  import opened ControllerProof

  /** A step of the controller's own in which no API call fails. A write of an outdated copy is rejected all
      the same. */
  predicate Undisturbed(step: Step) {
    !External(step) && !Failing(step)
  }

  /** Whether the key in hand can still come to be put back: a call failed already, or a listed copy is
      outdated because others wrote before they stopped. */
  ghost predicate MayFail(s: State) {
    match s.worker
    case Listing(_, _, _, _, failed) => failed
    case Writing(_, _, _, _, todo, failed) => failed || exists id :: id in todo && !UpToDate(s, id, todo[id])
    case Finishing(_, failed) => failed
    case _ => false
  }

  /** The steps left for the key in hand, if every list has n workloads. */
  function StepsInHand(worker: Pc, n: nat): nat {
    match worker
    case Idle => 0
    case Settling(_) => 1
    case Finishing(_, _) => 3
    case Writing(_, _, _, kind, todo, _) => |todo| + if kind == Deployment then n + 6 else 4
    case Listing(_, _, _, kind, _) => if kind == Deployment then 2 * n + 7 else n + 5
    case Picked(_) => 2 * n + 8
  }

  function One(b: bool): nat {
    if b then 1 else 0
  }

  /** How often a key can still be processed. */
  ghost function Rounds(s: State): nat {
    |s.queue.dirty| + |s.queue.waiting| + One(s.informer.Enqueueing?) + One(MayFail(s))
  }

  /** Steps outside the rounds still to come. */
  function Loose(s: State): nat {
    |s.queue.waiting| + One(s.informer.Enqueueing?) + StepsInHand(s.worker, |s.cluster|)
  }

  /** A bound on the steps until the controller is at rest. */
  ghost function Measure(s: State): nat {
    (2 * |s.cluster| + 9) * Rounds(s) + Loose(s)
  }

  // --- Every step uses the measure up ---

  /** A step is either one of the loose ones, or begins a round. */
  ghost predicate Progress(s: State, t: State) {
    && |t.cluster| == |s.cluster|
    && (|| (Rounds(t) <= Rounds(s) && Loose(t) < Loose(s))
        || (Rounds(t) < Rounds(s) && Loose(t) <= Loose(s) + 2 * |s.cluster| + 8))
  }

  lemma ProgressShrinks(s: State, t: State)
    requires Progress(s, t)
    ensures Measure(t) < Measure(s)
  {
    hide Rounds, Loose;
    RoundsWeigh(2 * |s.cluster| + 9, Rounds(t), Rounds(s));
  }

  lemma RoundsWeigh(c: nat, a: nat, b: nat)
    ensures a <= b ==> c * a <= c * b
    ensures a < b ==> c * a + c <= c * b
  {
    if a < b {
      OneMore(c, a, b);
    }
  }

  lemma OneMore(c: nat, a: nat, b: nat)
    requires a < b
    ensures c * a + c <= c * b
  {
    var d: nat := b - a - 1;
    assert b == a + 1 + d;
    assert c * (a + 1 + d) == c * a + c + c * d;
    assert 0 <= c * d;
  }

  lemma SetPlus(a: set<string>, k: string)
    ensures |a + {k}| == |a| + One(k !in a) && |a - {k}| == |a| - One(k in a)
  {
    if k in a {
      assert a + {k} == a && a == a - {k} + {k};
    } else {
      assert a - {k} == a;
    }
  }

  lemma EnqueueProgress(p: Params, s: State)
    requires Enabled(s, Enqueue)
    ensures Progress(s, Act(p, s, Enqueue))
  {
    SetPlus(s.queue.dirty, s.informer.key);
  }

  lemma FireProgress(p: Params, s: State, k: string)
    requires Enabled(s, Fire(k))
    ensures Progress(s, Act(p, s, Fire(k)))
  {
    SetPlus(s.queue.dirty, k);
    SetPlus(s.queue.waiting, k);
  }

  lemma DoneProgress(p: Params, s: State)
    requires Enabled(s, Done)
    ensures Progress(s, Act(p, s, Done))
  {}

  lemma SettleProgress(p: Params, s: State)
    requires Enabled(s, Settle)
    ensures Progress(s, Act(p, s, Settle))
  {
    SetPlus(s.queue.waiting, s.worker.key);
  }

  lemma PickProgress(p: Params, s: State)
    requires QueueOk(s) && Enabled(s, Pick)
    ensures Progress(s, Act(p, s, Pick))
  {
    var k := s.queue.ready[0];
    assert k in s.queue.ready;
    SetPlus(s.queue.dirty, k);
  }

  lemma StartProgress(p: Params, s: State)
    requires Enabled(s, Start)
    ensures Progress(s, Act(p, s, Start))
  {
    hide ParseEventKey;
  }

  lemma FewerKeys<K, V>(a: map<K, V>, b: map<K, V>)
    requires a.Keys <= b.Keys
    ensures |a| <= |b|
    ensures a.Keys == b.Keys ==> |a| == |b|
  {
    assert |a| == |a.Keys| && |b| == |b.Keys|;
    SubsetSmaller(a.Keys, b.Keys);
  }

  lemma SubsetSmaller<K>(a: set<K>, b: set<K>)
    requires a <= b
    ensures |a| <= |b|
  {
    assert b == a + (b - a);
  }

  lemma ListProgress(p: Params, s: State)
    requires Enabled(s, List(true))
    ensures Progress(s, Act(p, s, List(true)))
  {
    var t := Act(p, s, List(true));
    FewerKeys(t.worker.todo, s.cluster);
    assert forall id :: id in t.worker.todo ==> UpToDate(t, id, t.worker.todo[id]);
  }

  lemma WriteProgress(p: Params, s: State, id: Id)
    requires Enabled(s, Write(id, Accepted))
    ensures Progress(s, Act(p, s, Write(id, Accepted)))
  {
    hide RewriteWorkload;
    var t, w := Act(p, s, Write(id, Accepted)), s.worker;
    assert t.worker.todo == w.todo - {id};
    TodoShrinks(w.todo, id);
    FewerKeys(t.cluster, s.cluster);
    if UpToDate(s, id, w.todo[id]) {
      assert forall j :: j in t.worker.todo ==> (UpToDate(t, j, t.worker.todo[j]) <==> UpToDate(s, j, w.todo[j]));
    }
  }

  lemma TodoShrinks(m: map<Id, Stored>, id: Id)
    requires id in m
    ensures |m - {id}| == |m| - 1
  {
    assert (m - {id}).Keys == m.Keys - {id};
    assert |m - {id}| == |(m - {id}).Keys| && |m| == |m.Keys|;
  }

  lemma AdvanceProgress(p: Params, s: State)
    requires Enabled(s, Advance)
    ensures Progress(s, Act(p, s, Advance))
  {}

  lemma StepProgress(p: Params, s: State, step: Step)
    requires QueueOk(s) && Enabled(s, step) && Undisturbed(step)
    ensures Measure(Act(p, s, step)) < Measure(s)
  {
    hide Progress, Measure, Act;
    match step {
      case Enqueue => EnqueueProgress(p, s);
      case Fire(k) => FireProgress(p, s, k);
      case Done => DoneProgress(p, s);
      case Pick => PickProgress(p, s);
      case Start => StartProgress(p, s);
      case List(_) => ListProgress(p, s);
      case Write(id, _) => WriteProgress(p, s, id);
      case Advance => AdvanceProgress(p, s);
      case Settle => SettleProgress(p, s);
    }
    ProgressShrinks(s, Act(p, s, step));
  }

  // --- Convergence ---

  lemma {:induction false} StepsAreBounded(p: Params, s: State, steps: seq<Step>)
    requires p.Valid() && Inv(p, s) && Possible(p, s, steps)
    requires forall step :: step in steps ==> Undisturbed(step)
    ensures Inv(p, After(p, s, steps))
    ensures |steps| + Measure(After(p, s, steps)) <= Measure(s)
    decreases steps
  {
    hide Act, Enabled, Measure, Coverage, WorkerOk, StoreOk, CacheOk, QueueOk;
    if steps != [] {
      var step := steps[0];
      assert step in steps;
      StepProgress(p, s, step);
      InvStep(p, s, step);
      StepsAreBounded(p, Act(p, s, step), steps[1..]);
    }
  }

  /** A controller that is not at rest can take a step without failure. */
  lemma NotAtRestCanGoOn(s: State) returns (step: Step)
    requires QueueOk(s) && !Drained(s)
    ensures Enabled(s, step) && Undisturbed(step)
  {
    if s.informer.Enqueueing? {
      step := Enqueue;
    } else if s.worker.Idle? {
      if s.queue.ready != [] {
        step := Pick;
      } else {
        var k :| k in s.queue.waiting;
        step := Fire(k);
      }
    } else {
      match s.worker {
        case Picked(_) => step := Start;
        case Listing(_, _, _, _, _) => step := List(true);
        case Writing(_, _, _, _, todo, _) =>
          if id :| id in todo {
            step := Write(id, Accepted);
          } else {
            step := Advance;
          }
        case Finishing(_, _) => step := Settle;
        case Settling(_) => step := Done;
      }
    }
  }

  /** Convergence: after any run, once nobody interferes and no call fails, there are never more than a bounded
      number of steps; while the controller is not at rest there is a next one; and when there is none, every
      labelled workload agrees with the cache about every name that was ever in it. */
  lemma ConvergesOnceUndisturbed(p: Params, states: seq<State>, history: seq<Step>, steps: seq<Step>)
    requires p.Valid() && Run(p, states, history)
    requires Possible(p, states[|history|], steps) && forall step :: step in steps ==> Undisturbed(step)
    ensures var s, t := states[|history|], After(p, states[|history|], steps);
            && |steps| <= Measure(s)
            && (Drained(t) || exists step :: Enabled(t, step) && Undisturbed(step))
            && (|steps| == Measure(s) ==> Drained(t))
            && (Drained(t) ==> forall n :: n in t.known ==> Agrees(p, t, n))
  {
    hide Measure, Act, Enabled, Undisturbed;
    var s, t := states[|history|], After(p, states[|history|], steps);
    RunKeepsInv(p, states, history, |history|);
    StepsAreBounded(p, s, steps);
    if !Drained(t) {
      var step := NotAtRestCanGoOn(t);
      StepProgress(p, t, step);
    } else {
      forall n | n in t.known ensures Agrees(p, t, n) {
        RestAgrees(p, t, n);
      }
    }
  }
}
