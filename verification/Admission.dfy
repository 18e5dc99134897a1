/** Any number of failover loops (internal/cli/proxy/http_transport.go) sharing one breaker: each breaker
    call is atomic, everything else of the loops interleaves freely. */
module Admission {
  import opened SubBreakerSpec
  import opened BreakerSpec
  import opened Outcomes

  datatype Stage = Choosing | Sending | Booking(outcome: Outcome) | Returned(response: string)

  datatype Call = Call(endpoints: seq<string>, guarded: bool, pos: nat, stage: Stage) {
    /** Admitted by the breaker, and the breaker has not been told the result yet. */
    predicate Flying(e: string) {
      ((guarded && stage.Sending?) || stage.Booking?) && pos < |endpoints| && endpoints[pos] == e
    }
  }

  datatype Event =
    | Asked(call: nat, pos: nat, endpoint: string, admitted: bool)
    | Answered(call: nat, pos: nat, outcome: Outcome)
    | Booked(call: nat, pos: nat, endpoint: string)

  datatype World = World(breakers: Breakers, calls: map<nat, Call>, log: seq<Event>)

  datatype Action =
    | Begin(id: nat, endpoints: seq<string>, guarded: bool)
    | Choose(id: nat, created: int, now: int)
    | Reply(id: nat, outcome: Outcome)
    | Report(id: nat, created: int, now: int)

  predicate Enabled(w: World, a: Action) {
    match a
    case Begin(id, _, _) => id !in w.calls
    case Choose(id, _, _) =>
      id in w.calls && w.calls[id].stage.Choosing? && w.calls[id].pos < |w.calls[id].endpoints|
    case Reply(id, _) => id in w.calls && w.calls[id].stage.Sending?
    case Report(id, _, _) =>
      id in w.calls && w.calls[id].stage.Booking? && w.calls[id].pos < |w.calls[id].endpoints|
  }

  /** Where a call goes on once the outcome of its current endpoint is settled. */
  function Settled(c: Call, o: Outcome): Call {
    if o.Success? then c.(stage := Returned(o.response)) else c.(pos := c.pos + 1, stage := Choosing)
  }

  function Act(cfg: Settings, w: World, a: Action): World
    requires 0 < cfg.interval && Enabled(w, a)
  {
    match a
    case Begin(id, endpoints, guarded) =>
      w.(calls := w.calls[id := Call(endpoints, guarded, 0, Choosing)])
    case Choose(id, created, now) =>
      var c := w.calls[id];
      if !c.guarded then w.(calls := w.calls[id := c.(stage := Sending)])
      else
        var k := KeyedOp(c.endpoints[c.pos], created, Allow(now));
        var ok := Answer(cfg, w.breakers, k);
        World(Apply(cfg, w.breakers, k),
              w.calls[id := if ok then c.(stage := Sending) else c.(pos := c.pos + 1)],
              w.log + [Asked(id, c.pos, k.key, ok)])
    case Reply(id, o) =>
      var c := w.calls[id];
      w.(calls := w.calls[id := if c.guarded then c.(stage := Booking(o)) else Settled(c, o)],
         log := w.log + [Answered(id, c.pos, o)])
    case Report(id, created, now) =>
      var c := w.calls[id];
      var k := KeyedOp(c.endpoints[c.pos], created, Result(now, Kind(c.stage.outcome)));
      World(Apply(cfg, w.breakers, k),
            w.calls[id := Settled(c, c.stage.outcome)],
            w.log + [Booked(id, c.pos, k.key)])
  }

  /** The state a schedule leads to; an action that is not enabled when its turn comes does nothing. */
  function RunFrom(cfg: Settings, w: World, actions: seq<Action>): World
    requires 0 < cfg.interval
  {
    if actions == [] then w
    else
      var v := RunFrom(cfg, w, actions[..|actions| - 1]);
      if Enabled(v, actions[|actions| - 1]) then Act(cfg, v, actions[|actions| - 1]) else v
  }

  function Start(bs: Breakers): World {
    World(bs, map[], [])
  }

  /** From breakers in any state, and no call under way. */
  function Run(cfg: Settings, bs: Breakers, actions: seq<Action>): World
    requires 0 < cfg.interval
  {
    RunFrom(cfg, Start(bs), actions)
  }

  lemma RunLast(cfg: Settings, bs: Breakers, actions: seq<Action>, a: Action)
    requires 0 < cfg.interval
    ensures var w := Run(cfg, bs, actions);
            Run(cfg, bs, actions + [a]) == if Enabled(w, a) then Act(cfg, w, a) else w
  {
    assert (actions + [a])[..|actions|] == actions;
  }

  // --- What the breakers are told, and what they answer ---

  /** The operation of an action on the breakers, if there is one. */
  function OpOf(w: World, a: Action): seq<KeyedOp>
    requires Enabled(w, a)
  {
    match a
    case Choose(id, created, now) =>
      if w.calls[id].guarded then [KeyedOp(w.calls[id].endpoints[w.calls[id].pos], created, Allow(now))] else []
    case Report(id, created, now) =>
      [KeyedOp(w.calls[id].endpoints[w.calls[id].pos], created, Result(now, Kind(w.calls[id].stage.outcome)))]
    case _ => []
  }

  function Issued(cfg: Settings, bs: Breakers, actions: seq<Action>): seq<KeyedOp>
    requires 0 < cfg.interval
  {
    if actions == [] then []
    else
      var before, a := actions[..|actions| - 1], actions[|actions| - 1];
      Issued(cfg, bs, before) + if Enabled(Run(cfg, bs, before), a) then OpOf(Run(cfg, bs, before), a) else []
  }

  /** The answers on record for an endpoint. */
  function LoggedAnswers(log: seq<Event>, e: string): seq<bool> {
    if log == [] then []
    else
      var v := log[|log| - 1];
      LoggedAnswers(log[..|log| - 1], e) + if v.Asked? && v.endpoint == e then [v.admitted] else []
  }

  lemma LoggedNext(log: seq<Event>, v: Event, e: string)
    ensures LoggedAnswers(log + [v], e)
         == LoggedAnswers(log, e) + if v.Asked? && v.endpoint == e then [v.admitted] else []
  {
    assert (log + [v])[..|log|] == log;
  }

  lemma OpStep(cfg: Settings, w: World, a: Action, e: string)
    requires 0 < cfg.interval && Enabled(w, a)
    ensures var t, ops := Act(cfg, w, a), OpOf(w, a);
            && t.breakers == (if ops == [] then w.breakers else Apply(cfg, w.breakers, ops[0]))
            && LoggedAnswers(t.log, e)
               == LoggedAnswers(w.log, e)
                  + if ops != [] && ops[0].key == e && ops[0].op.Allow? then [Answer(cfg, w.breakers, ops[0])] else []
  {
    hide Apply, Answer, Kind, LoggedAnswers;
    var t := Act(cfg, w, a);
    if t.log != w.log {
      LoggedNext(w.log, t.log[|w.log|], e);
    }
  }

  lemma {:induction false} IssuedRun(cfg: Settings, bs: Breakers, actions: seq<Action>, e: string)
    requires 0 < cfg.interval
    ensures var w, ops := Run(cfg, bs, actions), Issued(cfg, bs, actions);
            w.breakers == RunAll(cfg, bs, ops) && LoggedAnswers(w.log, e) == Answers(cfg, bs, ops, e)
  {
    hide Act, Enabled, Apply, Answer, OpOf;
    if actions != [] {
      var before, a := actions[..|actions| - 1], actions[|actions| - 1];
      IssuedRun(cfg, bs, before, e);
      var w := Run(cfg, bs, before);
      if Enabled(w, a) {
        OpStep(cfg, w, a, e);
        AtMostOne(w, a);
        var ops := OpOf(w, a);
        if ops == [] {
          assert Issued(cfg, bs, actions) == Issued(cfg, bs, before);
        } else {
          assert Issued(cfg, bs, actions) == Issued(cfg, bs, before) + [ops[0]];
          AllNext(cfg, bs, Issued(cfg, bs, before), ops[0], e);
        }
      } else {
        assert Issued(cfg, bs, actions) == Issued(cfg, bs, before);
      }
    }
  }

  lemma AtMostOne(w: World, a: Action)
    requires Enabled(w, a)
    ensures var ops := OpOf(w, a); ops != [] ==> ops == [ops[0]]
  {}

  /** However the calls interleave, the state of an endpoint's breaker, and every answer on record for it, are
      those of one breaker fed the endpoint's requests and booked outcomes. */
  lemma AnswersAreTheBreakers(cfg: Settings, bs: Breakers, actions: seq<Action>, e: string)
    requires 0 < cfg.interval
    ensures var w, ops := Run(cfg, bs, actions), Issued(cfg, bs, actions);
            var alone, mine := Alone(bs, ops, e), Project(ops, e);
            && LoggedAnswers(w.log, e) == LoneAnswers(cfg, alone, mine)
            && (e in w.breakers ==> w.breakers[e] == SubBreakerSpec.Run(cfg, alone, mine))
  {
    hide Run, Issued;
    IssuedRun(cfg, bs, actions, e);
    PerKeyProjection(cfg, bs, Issued(cfg, bs, actions), e);
  }

  // --- Accounting ---

  predicate Admits(v: Event, e: string) {
    v.Asked? && v.admitted && v.endpoint == e
  }

  predicate Books(v: Event, e: string) {
    v.Booked? && v.endpoint == e
  }

  function AdmittedCount(log: seq<Event>, e: string): nat {
    if log == [] then 0
    else AdmittedCount(log[..|log| - 1], e) + if Admits(log[|log| - 1], e) then 1 else 0
  }

  function BookedCount(log: seq<Event>, e: string): nat {
    if log == [] then 0
    else BookedCount(log[..|log| - 1], e) + if Books(log[|log| - 1], e) then 1 else 0
  }

  function InFlight(calls: map<nat, Call>, e: string): set<nat> {
    set id | id in calls && calls[id].Flying(e)
  }

  /** Changing one call changes the set of calls in flight by that call only. */
  lemma InFlightUpdate(calls: map<nat, Call>, id: nat, c: Call, e: string)
    ensures |InFlight(calls[id := c], e)|
         == |InFlight(calls, e)| - (if id in calls && calls[id].Flying(e) then 1 else 0)
                                 + (if c.Flying(e) then 1 else 0)
  {
    var before, after := InFlight(calls, e), InFlight(calls[id := c], e);
    assert after == if c.Flying(e) then before - {id} + {id} else before - {id};
  }

  lemma LogAppend(log: seq<Event>, v: Event, e: string)
    ensures AdmittedCount(log + [v], e) == AdmittedCount(log, e) + if Admits(v, e) then 1 else 0
    ensures BookedCount(log + [v], e) == BookedCount(log, e) + if Books(v, e) then 1 else 0
  {}

  ghost predicate Balanced(w: World, e: string) {
    AdmittedCount(w.log, e) == BookedCount(w.log, e) + |InFlight(w.calls, e)|
  }

  /** An action touches one call and logs at most one event, and the call takes off or lands at an
      endpoint exactly when the event says so. */
  lemma ActShape(cfg: Settings, w: World, a: Action, e: string)
    requires 0 < cfg.interval && Enabled(w, a)
    ensures var t := Act(cfg, w, a);
            var flew := a.id in w.calls && w.calls[a.id].Flying(e);
            && a.id in t.calls && t.calls == w.calls[a.id := t.calls[a.id]]
            && ((t.log == w.log && flew == t.calls[a.id].Flying(e))
                || (|t.log| == |w.log| + 1 && t.log == w.log + [t.log[|w.log|]]
                    && (Admits(t.log[|w.log|], e) <==> !flew && t.calls[a.id].Flying(e))
                    && (Books(t.log[|w.log|], e) <==> flew && !t.calls[a.id].Flying(e))))
  {
    hide Apply, Answer;
    match a
    case Begin(_, _, _) =>
    case Choose(_, _, _) =>
    case Reply(_, _) =>
    case Report(_, _, _) =>
  }

  lemma BalanceStep(cfg: Settings, w: World, a: Action, e: string)
    requires 0 < cfg.interval && Enabled(w, a) && Balanced(w, e)
    ensures Balanced(Act(cfg, w, a), e)
  {
    hide Act, Admits, Books, Call.Flying;
    var t := Act(cfg, w, a);
    ActShape(cfg, w, a, e);
    InFlightUpdate(w.calls, a.id, t.calls[a.id], e);
    if t.log != w.log {
      LogAppend(w.log, t.log[|w.log|], e);
    }
  }

  /** At every point of every run, an endpoint was admitted exactly as often as a result was reported for
      it, plus once for each request to it still under way. */
  lemma {:induction false} AdmissionsAccountedFor(cfg: Settings, bs: Breakers, actions: seq<Action>, e: string)
    requires 0 < cfg.interval
    ensures var w := Run(cfg, bs, actions);
            AdmittedCount(w.log, e) == BookedCount(w.log, e) + |InFlight(w.calls, e)|
  {
    hide Act, Enabled;
    if actions != [] {
      AdmissionsAccountedFor(cfg, bs, actions[..|actions| - 1], e);
      var w, a := Run(cfg, bs, actions[..|actions| - 1]), actions[|actions| - 1];
      if Enabled(w, a) {
        BalanceStep(cfg, w, a, e);
      }
    } else {
      assert InFlight(Start(bs).calls, e) == {};
    }
  }

  // --- Failover order ---

  ghost predicate WasRefused(log: seq<Event>, id: nat, c: Call, j: nat)
    requires j < |c.endpoints|
  {
    c.guarded && Asked(id, j, c.endpoints[j], false) in log
  }

  ghost predicate WasSent(log: seq<Event>, id: nat, c: Call, j: nat)
    requires j < |c.endpoints|
  {
    !c.guarded || Asked(id, j, c.endpoints[j], true) in log
  }

  ghost predicate Passed(log: seq<Event>, id: nat, c: Call, j: nat)
    requires j < |c.endpoints|
  {
    || WasRefused(log, id, c, j)
    || (WasSent(log, id, c, j) && exists o: Outcome :: !o.Success? && Answered(id, j, o) in log)
  }

  /** How far a call has come, as the log shows it. */
  ghost predicate OnTrack(log: seq<Event>, id: nat, c: Call) {
    && c.pos <= |c.endpoints|
    && (forall j: nat :: j < c.pos ==> Passed(log, id, c, j))
    && (!c.stage.Choosing? ==> c.pos < |c.endpoints| && WasSent(log, id, c, c.pos))
    && (c.stage.Booking? ==> Answered(id, c.pos, c.stage.outcome) in log)
    && (c.stage.Returned? ==> Answered(id, c.pos, Success(c.stage.response)) in log)
  }

  lemma OnTrackMore(log: seq<Event>, more: seq<Event>, id: nat, c: Call)
    requires OnTrack(log, id, c)
    ensures OnTrack(log + more, id, c)
  {
    forall j: nat | j < c.pos ensures Passed(log + more, id, c, j) {
      assert Passed(log, id, c, j);
    }
  }

  lemma OnTrackSettled(log: seq<Event>, id: nat, c: Call, o: Outcome)
    requires OnTrack(log, id, c) && !c.stage.Choosing?
    requires Answered(id, c.pos, o) in log
    ensures OnTrack(log, id, Settled(c, o))
  {
    var d := Settled(c, o);
    forall j: nat | j < d.pos ensures Passed(log, id, d, j) {
      if j < c.pos {
        assert Passed(log, id, c, j);
      }
    }
  }

  lemma TrackStep(cfg: Settings, w: World, a: Action, id: nat)
    requires 0 < cfg.interval && Enabled(w, a)
    requires id in w.calls ==> OnTrack(w.log, id, w.calls[id])
    ensures var t := Act(cfg, w, a);
            id in t.calls ==> OnTrack(t.log, id, t.calls[id])
  {
    hide Apply, Answer, OnTrack;
    var t := Act(cfg, w, a);
    if id != a.id {
      if id in w.calls {
        OnTrackMore(w.log, t.log[|w.log|..], id, w.calls[id]);
        assert w.log + t.log[|w.log|..] == t.log;
      }
    } else {
      OwnStep(cfg, w, a);
    }
  }

  lemma OwnStep(cfg: Settings, w: World, a: Action)
    requires 0 < cfg.interval && Enabled(w, a)
    requires a.id in w.calls ==> OnTrack(w.log, a.id, w.calls[a.id])
    ensures OnTrack(Act(cfg, w, a).log, a.id, Act(cfg, w, a).calls[a.id])
  {
    hide Apply, Answer;
    var t := Act(cfg, w, a);
    match a
    case Begin(_, _, _) =>
    case Choose(id, _, _) =>
      var c := w.calls[id];
      assert t.log == w.log + t.log[|w.log|..];
      OnTrackMore(w.log, t.log[|w.log|..], id, c);
      var d := t.calls[id];
      forall j: nat | j < d.pos ensures Passed(t.log, id, d, j) {
        if j < c.pos {
          assert Passed(t.log, id, c, j);
        } else {
          assert t.log[|w.log|] == Asked(id, j, c.endpoints[j], false);
        }
      }
      if d.stage.Sending? && c.guarded {
        assert t.log[|w.log|] == Asked(id, d.pos, c.endpoints[d.pos], true);
      }
    case Reply(id, o) =>
      var c := w.calls[id];
      OnTrackMore(w.log, [Answered(id, c.pos, o)], id, c);
      assert t.log[|w.log|] == Answered(id, c.pos, o);
      if c.guarded {
        BookingOnTrack(t.log, id, c, o);
      } else {
        OnTrackSettled(t.log, id, c, o);
      }
    case Report(id, _, _) =>
      var c := w.calls[id];
      OnTrackMore(w.log, [t.log[|w.log|]], id, c);
      OnTrackSettled(t.log, id, c, c.stage.outcome);
  }

  lemma BookingOnTrack(log: seq<Event>, id: nat, c: Call, o: Outcome)
    requires OnTrack(log, id, c) && c.stage.Sending? && Answered(id, c.pos, o) in log
    ensures OnTrack(log, id, c.(stage := Booking(o)))
  {
    var d := c.(stage := Booking(o));
    forall j: nat | j < d.pos ensures Passed(log, id, d, j) {
      assert Passed(log, id, c, j);
    }
  }

  lemma {:induction false} CallsOnTrack(cfg: Settings, bs: Breakers, actions: seq<Action>, id: nat)
    requires 0 < cfg.interval
    ensures var w := Run(cfg, bs, actions);
            id in w.calls ==> OnTrack(w.log, id, w.calls[id])
  {
    hide OnTrack, Act, Enabled;
    if actions != [] {
      CallsOnTrack(cfg, bs, actions[..|actions| - 1], id);
      var w, a := Run(cfg, bs, actions[..|actions| - 1]), actions[|actions| - 1];
      if Enabled(w, a) {
        TrackStep(cfg, w, a, id);
      }
    }
  }

  /** A call that returns, whatever the others do meanwhile, returns the response of an endpoint that was
      admitted and answered, and every endpoint before it in the list was refused or failed. */
  lemma FirstAdmittedSuccessWins(cfg: Settings, bs: Breakers, actions: seq<Action>, id: nat)
    requires 0 < cfg.interval
    requires id in Run(cfg, bs, actions).calls && Run(cfg, bs, actions).calls[id].stage.Returned?
    ensures var w := Run(cfg, bs, actions);
            var c := w.calls[id];
            && c.pos < |c.endpoints|
            && WasSent(w.log, id, c, c.pos) && Answered(id, c.pos, Success(c.stage.response)) in w.log
            && forall j: nat :: j < c.pos ==> Passed(w.log, id, c, j)
  {
    CallsOnTrack(cfg, bs, actions, id);
  }

  /** A call that has run out of endpoints found every one of them refusing or failing. */
  lemma ExhaustedMeansAllPassed(cfg: Settings, bs: Breakers, actions: seq<Action>, id: nat)
    requires 0 < cfg.interval && id in Run(cfg, bs, actions).calls
    requires Run(cfg, bs, actions).calls[id].stage.Choosing?
    requires Run(cfg, bs, actions).calls[id].pos >= |Run(cfg, bs, actions).calls[id].endpoints|
    ensures var w := Run(cfg, bs, actions);
            forall j: nat :: j < |w.calls[id].endpoints| ==> Passed(w.log, id, w.calls[id], j)
  {
    CallsOnTrack(cfg, bs, actions, id);
  }
}
