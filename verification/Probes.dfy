/** Whose successes close a half-open breaker: the failover loops of internal/cli/proxy/http_transport.go against
    the half-open state of internal/cli/breaker/subbreaker.go. A result is counted when it is reported, whenever
    the request was admitted. */
module Probes {
  import W = Window
  import opened SubBreakerSpec
  import S = SubBreakerSpec
  import opened BreakerSpec
  import opened Outcomes
  import opened Admission
  import R = BreakerRuns

  /** The action asks the breaker of e and makes it half-open. */
  ghost predicate Enters(cfg: Settings, w: World, a: Action, e: string)
    requires 0 < cfg.interval
  {
    && a.Choose? && Enabled(w, a)
    && w.calls[a.id].guarded && w.calls[a.id].endpoints[w.calls[a.id].pos] == e
    && e in w.breakers && R.EntersHalfOpen(cfg, w.breakers[e], Allow(a.now))
  }

  /** The action reports a success for e while the breaker is half-open, and so counts towards closing it. */
  predicate Counts(w: World, a: Action, e: string) {
    && a.Report? && Enabled(w, a)
    && w.calls[a.id].endpoints[w.calls[a.id].pos] == e
    && w.calls[a.id].stage.outcome.Success?
    && e in w.breakers && w.breakers[e].phase == HalfOpen
  }

  /** Events logged after the first n show that the call was admitted at its current endpoint. */
  ghost predicate AdmittedSince(w: World, n: nat, id: nat)
    requires n <= |w.log| && id in w.calls && w.calls[id].pos < |w.calls[id].endpoints|
  {
    Asked(id, w.calls[id].pos, w.calls[id].endpoints[w.calls[id].pos], true) in w.log[n..]
  }

  /** A request to e that is under way and may still succeed, or has and is not booked. */
  predicate MaySucceed(c: Call, e: string) {
    c.Flying(e) && (c.stage.Sending? || c.stage.outcome.Success?)
  }

  // --- Stale requests ---

  /** A request under way has been admitted since, or is one of those that can only fail. */
  ghost predicate Accounted(w0: World, w: World, id: nat, e: string) {
    && w0.log <= w.log
    && (id in w.calls && w.calls[id].Flying(e) ==>
          || AdmittedSince(w, |w0.log|, id)
          || (id in w0.calls && w.calls[id] == w0.calls[id] && !MaySucceed(w0.calls[id], e)))
  }

  /** How the log and a call change in an action. */
  lemma OwnFlight(cfg: Settings, w: World, a: Action, e: string)
    requires 0 < cfg.interval && Enabled(w, a)
    ensures var t := Act(cfg, w, a);
            && w.log <= t.log && a.id in t.calls
            && (t.calls[a.id].Flying(e) ==>
                 || (a.id in w.calls && w.calls[a.id].Flying(e) && a.Reply? && w.calls[a.id].stage.Sending?
                     && t.calls[a.id].pos == w.calls[a.id].pos && t.calls[a.id].endpoints == w.calls[a.id].endpoints)
                 || (t.log == w.log + [Asked(a.id, t.calls[a.id].pos, e, true)]
                     && t.calls[a.id].endpoints[t.calls[a.id].pos] == e))
            && forall id :: id != a.id ==>
                 (id in t.calls <==> id in w.calls) && (id in w.calls ==> t.calls[id] == w.calls[id])
  {
    hide Apply, Answer;
    match a
    case Begin(_, _, _) =>
    case Choose(_, _, _) =>
    case Reply(_, _) =>
    case Report(_, _, _) =>
  }

  lemma AccountedStep(cfg: Settings, w0: World, w: World, a: Action, id: nat, e: string)
    requires 0 < cfg.interval && Enabled(w, a) && Accounted(w0, w, id, e)
    ensures Accounted(w0, Act(cfg, w, a), id, e)
  {
    hide Act, Enabled;
    var t, n := Act(cfg, w, a), |w0.log|;
    OwnFlight(cfg, w, a, e);
    assert t.log[n..] == w.log[n..] + t.log[|w.log|..];
    if id == a.id && t.calls[id].Flying(e) && !(id in w.calls && w.calls[id].Flying(e) && a.Reply?) {
      assert t.log[|w.log|..] == [Asked(id, t.calls[id].pos, e, true)];
    }
  }

  lemma {:induction false} AccountedRun(cfg: Settings, w0: World, w: World, more: seq<Action>, id: nat, e: string)
    requires 0 < cfg.interval && Accounted(w0, w, id, e)
    ensures Accounted(w0, RunFrom(cfg, w, more), id, e)
    decreases more
  {
    hide Act, Enabled, Accounted;
    if more != [] {
      AccountedRun(cfg, w0, w, more[..|more| - 1], id, e);
      if Enabled(RunFrom(cfg, w, more[..|more| - 1]), more[|more| - 1]) {
        AccountedStep(cfg, w0, RunFrom(cfg, w, more[..|more| - 1]), more[|more| - 1], id, e);
      }
    }
  }

  /** If the action is counted after the entry and more actions, it is about a request admitted since the
      entry began, the probe that made it included. */
  ghost predicate OnlyProbes(cfg: Settings, w: World, entry: Action, more: seq<Action>, a: Action, e: string)
    requires 0 < cfg.interval && Enabled(w, entry)
  {
    var v := RunFrom(cfg, Act(cfg, w, entry), more);
    Counts(v, a, e) ==> |w.log| <= |v.log| && AdmittedSince(v, |w.log|, a.id)
  }

  /** After a half-open entry, every success that is ever counted is that of a request admitted since, exactly
      if no request of before may still succeed. */
  lemma OnlyProbesCountIff(cfg: Settings, w: World, entry: Action, e: string)
    requires cfg.Valid() && Enters(cfg, w, entry, e)
    ensures (forall more, a :: OnlyProbes(cfg, w, entry, more, a, e))
       <==> (forall id :: id in w.calls ==> !MaySucceed(w.calls[id], e))
  {
    hide OnlyProbes, MaySucceed;
    if forall id :: id in w.calls ==> !MaySucceed(w.calls[id], e) {
      forall more, a ensures OnlyProbes(cfg, w, entry, more, a, e) {
        CountedIsAccounted(cfg, w, entry, more, a, e);
      }
    } else {
      var id :| id in w.calls && MaySucceed(w.calls[id], e);
      StaleCounts(cfg, w, entry, id, e);
      assert !OnlyProbes(cfg, w, entry, StaleMore(w.calls[id], id), Report(id, 0, 0), e);
    }
  }

  lemma CountedIsAccounted(cfg: Settings, w: World, entry: Action, more: seq<Action>, a: Action, e: string)
    requires cfg.Valid() && Enters(cfg, w, entry, e)
    requires forall id :: id in w.calls ==> !MaySucceed(w.calls[id], e)
    ensures OnlyProbes(cfg, w, entry, more, a, e)
  {
    hide Act, RunFrom;
    if Counts(RunFrom(cfg, Act(cfg, w, entry), more), a, e) {
      assert Accounted(w, w, a.id, e);
      AccountedStep(cfg, w, w, entry, a.id, e);
      AccountedRun(cfg, w, Act(cfg, w, entry), more, a.id, e);
    }
  }

  lemma OneAction(cfg: Settings, w: World, a: Action)
    requires 0 < cfg.interval && Enabled(w, a)
    ensures RunFrom(cfg, w, [a]) == Act(cfg, w, a)
  {
    assert [a][..0] == [] && RunFrom(cfg, w, []) == w;
  }

  function StaleMore(c: Call, id: nat): seq<Action> {
    if c.stage.Sending? then [Reply(id, Success(""))] else []
  }

  /** A stale request that may succeed can be counted. */
  lemma StaleCounts(cfg: Settings, w: World, entry: Action, id: nat, e: string)
    requires cfg.Valid() && Enters(cfg, w, entry, e) && id in w.calls && MaySucceed(w.calls[id], e)
    ensures !OnlyProbes(cfg, w, entry, StaleMore(w.calls[id], id), Report(id, 0, 0), e)
  {
    hide Step, S.Admits;
    var c := w.calls[id];
    var t := Act(cfg, w, entry);
    EntryShape(cfg, w, entry, e);
    assert id != entry.id && t.calls[id] == c;
    if c.stage.Sending? {
      OneAction(cfg, t, Reply(id, Success("")));
      var v := RunFrom(cfg, t, StaleMore(c, id));
      assert v == Act(cfg, t, Reply(id, Success("")));
      assert v.log[|w.log|..] == [Asked(entry.id, w.calls[entry.id].pos, e, true), Answered(id, c.pos, Success(""))];
    } else {
      assert t.log[|w.log|..] == [Asked(entry.id, w.calls[entry.id].pos, e, true)];
    }
  }

  lemma EntryShape(cfg: Settings, w: World, entry: Action, e: string)
    requires cfg.Valid() && Enters(cfg, w, entry, e)
    ensures var t := Act(cfg, w, entry);
            && t.log == w.log + [Asked(entry.id, w.calls[entry.id].pos, e, true)]
            && e in t.breakers && t.breakers[e].phase == HalfOpen
            && (forall id :: id in w.calls && id != entry.id ==> id in t.calls && t.calls[id] == w.calls[id])
  {
    EntryAdmits(cfg, w.breakers[e], entry.now);
    hide Step, S.Admits;
  }

  lemma EntryAdmits(cfg: Settings, s: State, now: int)
    requires cfg.Valid() && R.EntersHalfOpen(cfg, s, Allow(now))
    ensures S.Admits(cfg, s, Allow(now))
  {
    R.AdvanceFrame(cfg, s, now);
  }

  // --- What closes the breaker ---

  /** The requests, with their positions, whose successes were counted since the last half-open entry. */
  ghost function Counted(cfg: Settings, bs: Breakers, actions: seq<Action>, e: string): seq<(nat, nat)>
    requires 0 < cfg.interval
  {
    if actions == [] then []
    else
      var before, a := actions[..|actions| - 1], actions[|actions| - 1];
      var w := Admission.Run(cfg, bs, before);
      if Enters(cfg, w, a, e) then []
      else if Counts(w, a, e) then Counted(cfg, bs, before, e) + [(a.id, w.calls[a.id].pos)]
      else Counted(cfg, bs, before, e)
  }

  /** What one operation does to the success count of a breaker that is half-open afterwards. */
  lemma HalfOpenStep(cfg: Settings, s: State, op: Op)
    requires cfg.Valid() && (s.phase == HalfOpen ==> s.probeSuccess < cfg.halfOpenAllowed)
    ensures var t := Step(cfg, s, op);
            && (t.phase == HalfOpen ==>
                 && t.probeSuccess < cfg.halfOpenAllowed
                 && (|| (s.phase == Open && op.Allow? && t.probeSuccess == 0)
                     || (s.phase == HalfOpen
                         && t.probeSuccess == s.probeSuccess + if op == Result(op.at, W.SUCCESS) then 1 else 0)))
            && (s.phase == HalfOpen && t.phase == Closed ==>
                 op == Result(op.at, W.SUCCESS) && s.probeSuccess + 1 == cfg.halfOpenAllowed)
  {
    R.AdvanceFrame(cfg, s, op.at);
  }

  /** The operation of an action on the breaker of e, if there is one. */
  function OpOn(w: World, a: Action, e: string): seq<Op>
    requires Enabled(w, a)
  {
    var ops := OpOf(w, a);
    if ops != [] && ops[0].key == e then [ops[0].op] else []
  }

  lemma BreakerAt(cfg: Settings, w: World, a: Action, e: string)
    requires 0 < cfg.interval && Enabled(w, a)
    ensures var t := Act(cfg, w, a);
            if OpOn(w, a, e) == [] then
              (e in t.breakers <==> e in w.breakers) && (e in w.breakers ==> t.breakers[e] == w.breakers[e])
            else e in t.breakers && exists created ::
                   t.breakers[e] == Step(cfg, Lookup(w.breakers, e, created), OpOn(w, a, e)[0])
  {
    hide Step, Act, OpOf, S.Admits;
    OpStep(cfg, w, a, e);
  }

  ghost predicate Tallied(cfg: Settings, w: World, e: string, counted: int) {
    e in w.breakers && w.breakers[e].phase == HalfOpen ==>
      counted == w.breakers[e].probeSuccess < cfg.halfOpenAllowed
  }

  lemma TalliedStep(cfg: Settings, w: World, a: Action, e: string, counted: int)
    requires cfg.Valid() && Enabled(w, a) && Tallied(cfg, w, e, counted)
    ensures Tallied(cfg, Act(cfg, w, a), e,
                    if Enters(cfg, w, a, e) then 0 else if Counts(w, a, e) then counted + 1 else counted)
  {
    hide Act, Step, Contains;
    BreakerAt(cfg, w, a, e);
    var t, ops := Act(cfg, w, a), OpOn(w, a, e);
    if ops != [] {
      var created :| t.breakers[e] == Step(cfg, Lookup(w.breakers, e, created), ops[0]);
      HalfOpenStep(cfg, Lookup(w.breakers, e, created), ops[0]);
    }
  }

  /** The success count a breaker that was half-open to begin with had then, until it is entered again. */
  ghost function Carried(cfg: Settings, bs: Breakers, actions: seq<Action>, e: string): int
    requires 0 < cfg.interval
  {
    if actions == [] then if e in bs && bs[e].phase == HalfOpen then bs[e].probeSuccess else 0
    else
      var before, a := actions[..|actions| - 1], actions[|actions| - 1];
      if Enters(cfg, Admission.Run(cfg, bs, before), a, e) then 0 else Carried(cfg, bs, before, e)
  }

  /** The success count of a half-open breaker is the number of successes counted since its last entry, on top
      of what it had if that was before. */
  lemma {:induction false} CountedIsProbeSuccess(cfg: Settings, bs: Breakers, actions: seq<Action>, e: string)
    requires cfg.Valid()
    requires e in bs && bs[e].phase == HalfOpen ==> bs[e].probeSuccess < cfg.halfOpenAllowed
    ensures Tallied(cfg, Admission.Run(cfg, bs, actions), e,
                    Carried(cfg, bs, actions, e) + |Counted(cfg, bs, actions, e)|)
  {
    hide Act, Enabled, Enters, Counts;
    if actions != [] {
      hide Tallied;
      var before, a := actions[..|actions| - 1], actions[|actions| - 1];
      CountedIsProbeSuccess(cfg, bs, before, e);
      NeedsEnabled(cfg, Admission.Run(cfg, bs, before), a, e);
      if Enabled(Admission.Run(cfg, bs, before), a) {
        TalliedStep(cfg, Admission.Run(cfg, bs, before), a, e,
                    Carried(cfg, bs, before, e) + |Counted(cfg, bs, before, e)|);
      }
    }
  }

  lemma NeedsEnabled(cfg: Settings, w: World, a: Action, e: string)
    requires 0 < cfg.interval
    ensures Enters(cfg, w, a, e) || Counts(w, a, e) ==> Enabled(w, a)
  {}

  /** A half-open breaker is closed by an action that counts, and by no fewer and no more successes than
      halfOpenAllowed, this one and those it had to begin with included. */
  lemma ClosedByCounted(cfg: Settings, bs: Breakers, actions: seq<Action>, a: Action, e: string)
    requires cfg.Valid()
    requires e in bs && bs[e].phase == HalfOpen ==> bs[e].probeSuccess < cfg.halfOpenAllowed
    requires var w := Admission.Run(cfg, bs, actions);
             && Enabled(w, a) && e in w.breakers && w.breakers[e].phase == HalfOpen
             && e in Act(cfg, w, a).breakers && Act(cfg, w, a).breakers[e].phase == Closed
    ensures Counts(Admission.Run(cfg, bs, actions), a, e)
    ensures Carried(cfg, bs, actions, e) + |Counted(cfg, bs, actions, e)| + 1 == cfg.halfOpenAllowed
  {
    hide Act, Step, Contains, Admission.Run, Counted, Carried;
    var w := Admission.Run(cfg, bs, actions);
    CountedIsProbeSuccess(cfg, bs, actions, e);
    BreakerAt(cfg, w, a, e);
    var ops := OpOn(w, a, e);
    assert ops != [];
    var created :| Act(cfg, w, a).breakers[e] == Step(cfg, Lookup(w.breakers, e, created), ops[0]);
    HalfOpenStep(cfg, w.breakers[e], ops[0]);
  }

  // --- A stale success closes the breaker ---

  lemma TimeoutIsTimeout()
    ensures Kind(Failure("timeout")) == W.TIMEOUT
  {
    assert "timeout"[..7] == "timeout";
  }

  /** Two admissions, one timeout, a refusal that opens the breaker, and a probe after openDuration. */
  lemma BreakerTrace(cfg: Settings, later: int)
    requires cfg.Valid() && cfg.halfOpenAllowed == 1 && cfg.minRequestCount == 1 && cfg.failureRateThreshold < 1.0
    requires later == cfg.openDuration + 1
    ensures var s1 := Step(cfg, Fresh(0), Allow(0));
            var s2 := Step(cfg, s1, Allow(0));
            var s3 := Step(cfg, s2, Result(0, W.TIMEOUT));
            var s4 := Step(cfg, s3, Allow(0));
            var s5 := Step(cfg, s4, Allow(later));
            && S.Admits(cfg, Fresh(0), Allow(0)) && S.Admits(cfg, s1, Allow(0)) && !S.Admits(cfg, s3, Allow(0))
            && R.EntersHalfOpen(cfg, s4, Allow(later)) && S.Admits(cfg, s4, Allow(later))
            && Step(cfg, s5, Result(later, W.SUCCESS)).phase == Closed
  {
    var s1 := Step(cfg, Fresh(0), Allow(0));
    assert s1 == Fresh(0);
    var s2 := Step(cfg, s1, Allow(0));
    var s3 := Step(cfg, s2, Result(0, W.TIMEOUT));
    TimeoutTrips(cfg);
    var s4 := Step(cfg, s3, Allow(0));
    assert s4.phase == Open && s4.openUntil == cfg.openDuration;
    EntryProbes(cfg, s4, later);
  }

  lemma TimeoutTrips(cfg: Settings)
    requires cfg.Valid() && cfg.minRequestCount == 1 && cfg.failureRateThreshold < 1.0
    ensures var s3 := Step(cfg, Fresh(0), Result(0, W.TIMEOUT));
            Step(cfg, s3, Allow(0)) == Trip(cfg, s3, 0) && !S.Admits(cfg, s3, Allow(0))
  {
    var s3 := Step(cfg, Fresh(0), Result(0, W.TIMEOUT));
    assert W.Summary(s3.window) == multiset{W.TIMEOUT};
  }

  lemma EntryProbes(cfg: Settings, s: State, later: int)
    requires cfg.Valid() && cfg.halfOpenAllowed == 1 && s.phase == Open && s.openUntil < later
    ensures R.EntersHalfOpen(cfg, s, Allow(later)) && S.Admits(cfg, s, Allow(later))
    ensures Step(cfg, Step(cfg, s, Allow(later)), Result(later, W.SUCCESS)).phase == Closed
  {
    R.AdvanceFrame(cfg, s, later);
    R.AdvanceFrame(cfg, Step(cfg, s, Allow(later)), later);
  }

  /** Four calls to one endpoint: two are admitted and under way, the second times out, the third is refused,
      and the fourth is about to ask. */
  function StaleRun(e: string): seq<Action> {
    [Begin(0, [e], true), Begin(1, [e], true), Begin(2, [e], true), Begin(3, [e], true),
     Choose(0, 0, 0), Choose(1, 0, 0), Reply(1, Failure("timeout")), Report(1, 0, 0), Choose(2, 0, 0)]
  }

  /** The four calls have begun, and two are under way. */
  function TwoUnderWay(cfg: Settings, e: string): World
    requires 0 < cfg.interval
  {
    var asking, waiting := Call([e], true, 0, Choosing), Call([e], true, 0, Sending);
    World(map[e := Step(cfg, Step(cfg, Fresh(0), Allow(0)), Allow(0))],
          map[0 := waiting, 1 := waiting, 2 := asking, 3 := asking],
          [Asked(0, 0, e, true), Asked(1, 0, e, true)])
  }

  lemma StaleRunBegins(cfg: Settings, e: string)
    requires 0 < cfg.interval
    ensures var asking := Call([e], true, 0, Choosing);
            Admission.Run(cfg, map[], StaleRun(e)[..4])
            == World(map[], map[0 := asking, 1 := asking, 2 := asking, 3 := asking], [])
  {
    hide Admission.Run;
    var run := StaleRun(e);
    EmptyRun(cfg);
    assert run[..0] == [];
    forall n: nat | n < 4 ensures run[..n + 1] == run[..n] + [Begin(n, [e], true)] {}
    RunLast(cfg, map[], run[..0], Begin(0, [e], true));
    RunLast(cfg, map[], run[..1], Begin(1, [e], true));
    RunLast(cfg, map[], run[..2], Begin(2, [e], true));
    RunLast(cfg, map[], run[..3], Begin(3, [e], true));
  }

  lemma StaleRunGoesOn(cfg: Settings, e: string)
    requires 0 < cfg.interval
    requires S.Admits(cfg, Fresh(0), Allow(0)) && S.Admits(cfg, Step(cfg, Fresh(0), Allow(0)), Allow(0))
    ensures Admission.Run(cfg, map[], StaleRun(e)[..6]) == TwoUnderWay(cfg, e)
  {
    hide Step, S.Admits, Admission.Run;
    var run := StaleRun(e);
    StaleRunBegins(cfg, e);
    RunLast(cfg, map[], run[..4], Choose(0, 0, 0));
    assert run[..5] == run[..4] + [Choose(0, 0, 0)];
    RunLast(cfg, map[], run[..5], Choose(1, 0, 0));
    assert run[..6] == run[..5] + [Choose(1, 0, 0)];
    assert Admission.Run(cfg, map[], run[..6]).calls == TwoUnderWay(cfg, e).calls;
    assert Admission.Run(cfg, map[], run[..6]).breakers == TwoUnderWay(cfg, e).breakers;
  }

  lemma StaleRunEnds(cfg: Settings, e: string, later: int)
    requires cfg.Valid() && cfg.halfOpenAllowed == 1 && cfg.minRequestCount == 1 && cfg.failureRateThreshold < 1.0
    requires later == cfg.openDuration + 1
    ensures var w := Admission.Run(cfg, map[], StaleRun(e));
            && Enters(cfg, w, Choose(3, 0, later), e)
            && 0 in w.calls && w.calls[0] == Call([e], true, 0, Sending)
            && S.Admits(cfg, w.breakers[e], Allow(later))
            && Step(cfg, Step(cfg, w.breakers[e], Allow(later)), Result(later, W.SUCCESS)).phase == Closed
  {
    BreakerTrace(cfg, later);
    TimeoutIsTimeout();
    hide Step, S.Admits, Kind, Admission.Run, R.EntersHalfOpen;
    var run := StaleRun(e);
    StaleRunGoesOn(cfg, e);
    RunLast(cfg, map[], run[..6], Reply(1, Failure("timeout")));
    assert run[..7] == run[..6] + [Reply(1, Failure("timeout"))];
    RunLast(cfg, map[], run[..7], Report(1, 0, 0));
    assert run[..8] == run[..7] + [Report(1, 0, 0)];
    RunLast(cfg, map[], run[..8], Choose(2, 0, 0));
    assert run == run[..8] + [Choose(2, 0, 0)];
  }

  lemma EmptyRun(cfg: Settings)
    requires 0 < cfg.interval
    ensures Admission.Run(cfg, map[], []) == Start(map[])
  {}

  /** A request admitted before the breaker opened, and answered after a probe has been admitted, closes the
      breaker although the probe is still out. */
  lemma StaleSuccessCloses(cfg: Settings, e: string, later: int)
    requires cfg.Valid() && cfg.halfOpenAllowed == 1 && cfg.minRequestCount == 1 && cfg.failureRateThreshold < 1.0
    requires later == cfg.openDuration + 1
    ensures var w := Admission.Run(cfg, map[], StaleRun(e));
            && Enters(cfg, w, Choose(3, 0, later), e)
            && var v := RunFrom(cfg, Act(cfg, w, Choose(3, 0, later)), [Reply(0, Success(""))]);
            && Counts(v, Report(0, 0, later), e) && |w.log| <= |v.log| && !AdmittedSince(v, |w.log|, 0)
            && var t := Act(cfg, v, Report(0, 0, later));
            && e in t.breakers && t.breakers[e].phase == Closed
            && 3 in t.calls && t.calls[3].Flying(e)
  {
    StaleRunEnds(cfg, e, later);
    hide Step, S.Admits, Admission.Run, R.EntersHalfOpen, StaleRun;
    var w, entry := Admission.Run(cfg, map[], StaleRun(e)), Choose(3, 0, later);
    var t := Act(cfg, w, entry);
    EntryShape(cfg, w, entry, e);
    StaleCounts(cfg, w, entry, 0, e);
    OneAction(cfg, t, Reply(0, Success("")));
    var v := RunFrom(cfg, t, [Reply(0, Success(""))]);
    assert StaleMore(w.calls[0], 0) == [Reply(0, Success(""))];
    assert v.breakers == t.breakers && t.breakers[e] == Step(cfg, w.breakers[e], Allow(later));
  }
}
