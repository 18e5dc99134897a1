/** The failover loop of internal/cli/proxy/http_transport.go, run by one caller on its own: the machine of
    `Admission` with a single call. */
module LoadBalancing {
  import W = Window
  import opened SubBreakerSpec
  import opened BreakerSpec
  import opened BreakerModule
  import opened Outcomes
  import A = Admission

  /** What the environment has in store for one endpoint: clock readings and the outcome of sending. */
  datatype Attempt = Attempt(endpoint: string, created: int, askedAt: int, outcome: Outcome, doneAt: int)

  function Booking(a: Attempt): KeyedOp {
    KeyedOp(a.endpoint, a.created, Result(a.doneAt, Kind(a.outcome)))
  }

  function Endpoints(attempts: seq<Attempt>): seq<string> {
    seq(|attempts|, i requires 0 <= i < |attempts| => attempts[i].endpoint)
  }

  /** One call about all the endpoints, which meets the first n attempts. What it has no use for (the reply of an
      endpoint that was not asked, a report without a breaker, all that follows a response) does nothing. */
  function Schedule(guarded: bool, attempts: seq<Attempt>, n: nat): seq<A.Action>
    requires n <= |attempts|
  {
    if n == 0 then [A.Begin(0, Endpoints(attempts), guarded)]
    else
      var a := attempts[n - 1];
      Schedule(guarded, attempts, n - 1)
      + [A.Choose(0, a.created, a.askedAt), A.Reply(0, a.outcome), A.Report(0, a.created, a.doneAt)]
  }

  function Scheduled(cfg: Settings, bs: Breakers, guarded: bool, attempts: seq<Attempt>, n: nat): A.World
    requires 0 < cfg.interval && n <= |attempts|
  {
    A.Run(cfg, bs, Schedule(guarded, attempts, n))
  }

  /** Where the one call stands. */
  predicate At(w: A.World, guarded: bool, attempts: seq<Attempt>, pos: nat, stage: A.Stage) {
    w.calls == map[0 := A.Call(Endpoints(attempts), guarded, pos, stage)]
  }

  lemma Begun(cfg: Settings, bs: Breakers, guarded: bool, attempts: seq<Attempt>)
    requires 0 < cfg.interval
    ensures var w := Scheduled(cfg, bs, guarded, attempts, 0);
            w.breakers == bs && At(w, guarded, attempts, 0, A.Choosing)
  {
    var begin := A.Begin(0, Endpoints(attempts), guarded);
    assert [begin] == [] + [begin];
    A.RunLast(cfg, bs, [], begin);
  }

  function Next(cfg: Settings, w: A.World, a: A.Action): A.World
    requires 0 < cfg.interval
  {
    if A.Enabled(w, a) then A.Act(cfg, w, a) else w
  }

  lemma ThreeMore(cfg: Settings, bs: Breakers, guarded: bool, attempts: seq<Attempt>, n: nat)
    requires 0 < cfg.interval && n < |attempts|
    ensures var a, w := attempts[n], Scheduled(cfg, bs, guarded, attempts, n);
            Scheduled(cfg, bs, guarded, attempts, n + 1)
            == Next(cfg, Next(cfg, Next(cfg, w, A.Choose(0, a.created, a.askedAt)), A.Reply(0, a.outcome)),
                    A.Report(0, a.created, a.doneAt))
  {
    hide A.Run, A.Act, A.Enabled;
    var a, s := attempts[n], Schedule(guarded, attempts, n);
    var choose, reply := A.Choose(0, a.created, a.askedAt), A.Reply(0, a.outcome);
    var report := A.Report(0, a.created, a.doneAt);
    A.RunLast(cfg, bs, s, choose);
    A.RunLast(cfg, bs, s + [choose], reply);
    A.RunLast(cfg, bs, s + [choose] + [reply], report);
    assert s + [choose, reply, report] == s + [choose] + [reply] + [report];
  }

  /** What the machine makes of one attempt of a call that is looking for an endpoint. */
  lemma Attempted(cfg: Settings, bs: Breakers, guarded: bool, attempts: seq<Attempt>, n: nat)
    requires 0 < cfg.interval && n < |attempts|
    requires At(Scheduled(cfg, bs, guarded, attempts, n), guarded, attempts, n, A.Choosing)
    ensures var a, b := attempts[n], Scheduled(cfg, bs, guarded, attempts, n).breakers;
            var ask := KeyedOp(a.endpoint, a.created, Allow(a.askedAt));
            var w := Scheduled(cfg, bs, guarded, attempts, n + 1);
            if guarded && !Answer(cfg, b, ask) then
              w.breakers == Apply(cfg, b, ask) && At(w, guarded, attempts, n + 1, A.Choosing)
            else
              && w.breakers == (if guarded then Apply(cfg, Apply(cfg, b, ask), Booking(a)) else b)
              && (if a.outcome.Success? then At(w, guarded, attempts, n, A.Returned(a.outcome.response))
                  else At(w, guarded, attempts, n + 1, A.Choosing))
  {
    hide Apply, Answer, A.Run, Kind;
    ThreeMore(cfg, bs, guarded, attempts, n);
  }

  /** A call that has returned is left alone. */
  lemma {:induction false} ReturnedStays(
      cfg: Settings, bs: Breakers, guarded: bool, attempts: seq<Attempt>, i: nat, response: string, n: nat)
    requires 0 < cfg.interval && i <= n <= |attempts|
    requires var w := Scheduled(cfg, bs, guarded, attempts, i);
             exists pos: nat :: At(w, guarded, attempts, pos, A.Returned(response))
    ensures Scheduled(cfg, bs, guarded, attempts, n) == Scheduled(cfg, bs, guarded, attempts, i)
  {
    hide A.Run, A.Act;
    if i < n {
      ReturnedStays(cfg, bs, guarded, attempts, i, response, n - 1);
      ThreeMore(cfg, bs, guarded, attempts, n - 1);
    }
  }

  /** Endpoint j is admitted when its turn comes, and answers. */
  predicate Serves(cfg: Settings, bs: Breakers, guarded: bool, attempts: seq<Attempt>, j: nat)
    requires 0 < cfg.interval && j < |attempts|
  {
    var a := attempts[j];
    var ask := KeyedOp(a.endpoint, a.created, Allow(a.askedAt));
    a.outcome.Success? && (guarded ==> Answer(cfg, Scheduled(cfg, bs, guarded, attempts, j).breakers, ask))
  }

  /** After n attempts the call stands at its first endpoint that serves, or past them all. */
  lemma {:induction false} Standing(cfg: Settings, bs: Breakers, guarded: bool, attempts: seq<Attempt>, n: nat)
      returns (i: nat)
    requires 0 < cfg.interval && n <= |attempts|
    ensures i <= n && forall j :: 0 <= j < i ==> !Serves(cfg, bs, guarded, attempts, j)
    ensures i < n ==> Serves(cfg, bs, guarded, attempts, i)
    ensures At(Scheduled(cfg, bs, guarded, attempts, n), guarded, attempts, i,
               if i < n then A.Returned(attempts[i].outcome.response) else A.Choosing)
  {
    hide Scheduled, At, Answer;
    if n == 0 {
      Begun(cfg, bs, guarded, attempts);
      i := 0;
    } else {
      i := Standing(cfg, bs, guarded, attempts, n - 1);
      if i < n - 1 {
        ReturnedStays(cfg, bs, guarded, attempts, n - 1, attempts[i].outcome.response, n);
      } else {
        Attempted(cfg, bs, guarded, attempts, n - 1);
        i := if Serves(cfg, bs, guarded, attempts, n - 1) then n - 1 else n;
      }
    }
  }

  lemma OnePlace(w: A.World, guarded: bool, attempts: seq<Attempt>, pos: nat, stage: A.Stage, i: nat, other: A.Stage)
    requires At(w, guarded, attempts, pos, stage) && At(w, guarded, attempts, i, other)
    ensures pos == i && stage == other
  {
    assert w.calls[0].pos == pos && w.calls[0].stage == stage;
  }

  /** The response is that of the first endpoint in list order that is admitted and answers, and nothing is
      left that was admitted and not booked. */
  lemma WinnerIsFirst(
      cfg: Settings, bs: Breakers, guarded: bool, attempts: seq<Attempt>, response: string, winner: nat, e: string)
    requires 0 < cfg.interval && winner <= |attempts|
    requires At(Scheduled(cfg, bs, guarded, attempts, |attempts|), guarded, attempts, winner,
                if winner < |attempts| then A.Returned(response) else A.Choosing)
    ensures forall j :: 0 <= j < winner ==> !Serves(cfg, bs, guarded, attempts, j)
    ensures winner < |attempts| ==>
              Serves(cfg, bs, guarded, attempts, winner) && attempts[winner].outcome == Success(response)
    ensures var log := Scheduled(cfg, bs, guarded, attempts, |attempts|).log;
            A.AdmittedCount(log, e) == A.BookedCount(log, e)
  {
    hide Serves, A.Run, A.AdmittedCount, A.BookedCount;
    var w := Scheduled(cfg, bs, guarded, attempts, |attempts|);
    var i := Standing(cfg, bs, guarded, attempts, |attempts|);
    if i < |attempts| {
      ServingAnswers(cfg, bs, guarded, attempts, i);
    }
    OnePlace(w, guarded, attempts, winner, if winner < |attempts| then A.Returned(response) else A.Choosing,
             i, if i < |attempts| then A.Returned(attempts[i].outcome.response) else A.Choosing);
    A.AdmissionsAccountedFor(cfg, bs, Schedule(guarded, attempts, |attempts|), e);
    assert A.InFlight(w.calls, e) == {};
  }

  lemma ServingAnswers(cfg: Settings, bs: Breakers, guarded: bool, attempts: seq<Attempt>, j: nat)
    requires 0 < cfg.interval && j < |attempts| && Serves(cfg, bs, guarded, attempts, j)
    ensures attempts[j].outcome.Success?
  {}

  method RecordFailure(breaker: Breaker, a: Attempt)
    requires breaker.Valid() && !a.outcome.Success?
    modifies breaker.Repr
    ensures breaker.Valid() && fresh(breaker.Repr - old(breaker.Repr))
    ensures breaker.View == Apply(breaker.Config(), old(breaker.View), Booking(a))
  {
    hide Breaker.Fits, Breaker.Belongs, NewSettings, Apply, Contains;
    var error := a.outcome.error;
    if Contains(error, "timeout") || Contains(error, "deadline exceeded") {
      breaker.Record(a.endpoint, a.created, a.doneAt, W.TIMEOUT);
    } else if Contains(error, "connection refused") || Contains(error, "network") {
      breaker.Record(a.endpoint, a.created, a.doneAt, W.NETWORK_FAILURE);
    } else {
      breaker.Record(a.endpoint, a.created, a.doneAt, W.BUSINESS_FAILURE);
    }
  }

  /** The loop does to the breakers what the machine does with one call, and ends as that call does: with the
      response of endpoint `winner`, or past the last endpoint. */
  method LoadBalance(breaker: Breaker, useBreaker: bool, attempts: seq<Attempt>)
    returns (response: string, winner: nat)
    requires breaker.Valid()
    modifies breaker.Repr
    ensures breaker.Valid() && winner <= |attempts|
    ensures var w := Scheduled(breaker.Config(), old(breaker.View), useBreaker, attempts, |attempts|);
            && breaker.View == w.breakers
            && At(w, useBreaker, attempts, winner, if winner < |attempts| then A.Returned(response) else A.Choosing)
  {
    hide Breaker.Fits, Breaker.Belongs, NewSettings, Apply, Answer, Scheduled, At;
    ghost var cfg := breaker.Config();
    ghost var start := breaker.View;
    var i := 0;
    Begun(cfg, start, useBreaker, attempts);
    while i < |attempts|
      invariant 0 <= i <= |attempts|
      invariant breaker.Valid() && fresh(breaker.Repr - old(breaker.Repr))
      invariant breaker.View == Scheduled(cfg, start, useBreaker, attempts, i).breakers
      invariant At(Scheduled(cfg, start, useBreaker, attempts, i), useBreaker, attempts, i, A.Choosing)
    {
      Attempted(cfg, start, useBreaker, attempts, i);
      var a := attempts[i];
      i := i + 1;
      if useBreaker {
        var ok := breaker.Allowed(a.endpoint, a.created, a.askedAt);
        if !ok {
          continue;
        }
        if !a.outcome.Success? {
          RecordFailure(breaker, a);
          continue;
        }
        breaker.Record(a.endpoint, a.created, a.doneAt, W.SUCCESS);
      }
      if !a.outcome.Success? {
        continue;
      }
      ReturnedStays(cfg, start, useBreaker, attempts, i, a.outcome.response, |attempts|);
      return a.outcome.response, i - 1;
    }
    return "", i;
  }
}
