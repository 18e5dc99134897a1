/** The exact answers of `allowed` and effects of `record` (internal/cli/breaker/subbreaker.go:86-160) in every
    phase, in terms of the operations of the run. */
module BreakerAnswers {
  import W = Window
  import opened SubBreakerSpec
  import opened BreakerRuns

  // --- Closed ---

  /** Enough results, and more than the threshold's share of them network failures or timeouts. */
  predicate TooManyFailures(cfg: Settings, r: W.Results) {
    |r| >= cfg.minRequestCount
    && (r[W.NETWORK_FAILURE] + r[W.TIMEOUT]) as real > cfg.failureRateThreshold * |r| as real
  }

  lemma QuotientAsProduct(n: real, t: real, threshold: real)
    requires 0.0 < t
    ensures n / t > threshold <==> n > threshold * t
  {
    var q := n / t;
    assert q * t == n;
    if q > threshold {
      assert (q - threshold) * t > 0.0;
    } else {
      assert (threshold - q) * t >= 0.0;
    }
  }

  lemma ExceededIsTooMany(cfg: Settings, r: W.Results)
    requires cfg.Valid()
    ensures |r| >= cfg.minRequestCount && RateExceeded(cfg, r) <==> TooManyFailures(cfg, r)
  {
    if |r| > 0 {
      QuotientAsProduct((r[W.NETWORK_FAILURE] + r[W.TIMEOUT]) as real, |r| as real, cfg.failureRateThreshold);
    }
  }

  /** A closed breaker refuses exactly on too many failures in the window brought up to date, and then opens
      for the full time. */
  lemma ClosedAnswer(cfg: Settings, s: State, at: int)
    requires cfg.Valid() && s.phase == Closed
    ensures var w, t := Advance(cfg, s, at).window, Step(cfg, s, Allow(at));
            && (Admits(cfg, s, Allow(at)) <==> !TooManyFailures(cfg, W.Summary(w)))
            && t.window == w
            && (if Admits(cfg, s, Allow(at)) then t.phase == Closed
                else t.phase == Open && t.openUntil == at + cfg.openDuration)
  {
    AdvanceFrame(cfg, s, at);
    ExceededIsTooMany(cfg, W.Summary(Advance(cfg, s, at).window));
    hide RateExceeded, TooManyFailures, Advance, W.Summary;
  }

  /** The bucket pushes attempted since creation or the last closing. */
  function PushesSinceClosing(cfg: Settings, s: State, ops: seq<Op>): nat
    requires 0 < cfg.interval
  {
    if ops == [] then 0
    else
      var before := ops[..|ops| - 1];
      if Closes(cfg, Run(cfg, s, before), ops[|ops| - 1]) then 0
      else PushesSinceClosing(cfg, s, before) + Pushes(cfg, Run(cfg, s, before), ops[|ops| - 1].at)
  }

  lemma {:induction false} ZerosAreEmpty(n: nat)
    ensures W.Union(Zeros(n)) == multiset{}
  {
    if n > 0 {
      assert Zeros(n)[..n - 1] == Zeros(n - 1);
      ZerosAreEmpty(n - 1);
    }
  }

  /** While the ring has room for all the pushes, bringing the window up to date loses nothing. */
  lemma AdvanceLosesNothing(cfg: Settings, s: State, now: int)
    requires 0 < cfg.interval && s.lastTick <= now
    requires |s.window.closed| + Pushes(cfg, s, now) <= cfg.capacity
    ensures var a := Advance(cfg, s, now).window;
            W.Summary(a) == W.Summary(s.window) && |a.closed| == |s.window.closed| + Pushes(cfg, s, now)
  {
    AdvanceArithmetic(cfg, s, now);
    var k := Pushes(cfg, s, now);
    if k >= 1 {
      ZerosAreEmpty(k - 1);
      W.UnionConcat(s.window.closed, Zeros(k - 1));
      W.UnionAppend(s.window.closed + Zeros(k - 1), s.window.current);
    }
  }

  lemma {:induction false} TickIsPast(cfg: Settings, created: int, ops: seq<Op>)
    requires 0 < cfg.interval && Timed(created, ops)
    ensures Run(cfg, Fresh(created), ops).lastTick <= LastTime(created, ops)
  {
    hide Step, Advance;
    if ops != [] {
      var before, op := ops[..|ops| - 1], ops[|ops| - 1];
      TickIsPast(cfg, created, before);
      StepTick(cfg, Run(cfg, Fresh(created), before), op);
      AdvanceTo(cfg, Run(cfg, Fresh(created), before), op.at);
    }
  }

  lemma AdvanceTo(cfg: Settings, s: State, now: int)
    requires 0 < cfg.interval && s.lastTick <= now
    ensures Advance(cfg, s, now).lastTick <= now
  {}

  ghost predicate Complete(cfg: Settings, w: W.State, pushes: nat, reported: W.Results) {
    pushes <= cfg.capacity ==> |w.closed| == pushes && W.Summary(w) == reported
  }

  lemma CompleteStep(cfg: Settings, s: State, op: Op, pushes: nat, reported: W.Results)
    requires 0 < cfg.interval && s.lastTick <= op.at && Complete(cfg, s.window, pushes, reported)
    ensures Closes(cfg, s, op) ==> Complete(cfg, Step(cfg, s, op).window, 0, multiset{})
    ensures !Closes(cfg, s, op) ==>
              Complete(cfg, Step(cfg, s, op).window, pushes + Pushes(cfg, s, op.at),
                       if op.Result? then reported + multiset{op.m} else reported)
  {
    AdvanceFrame(cfg, s, op.at);
    var a := Advance(cfg, s, op.at);
    if pushes + Pushes(cfg, s, op.at) <= cfg.capacity {
      AdvanceLosesNothing(cfg, s, op.at);
    }
    hide Advance, Pushes;
    match op
    case Allow(at) => DecideFrame(cfg, a, at);
    case Result(at, m) => BookFrame(cfg, a, at, m);
  }

  /** While no bucket has been refused since creation or the last closing, the window shows exactly what was
      reported since then. */
  lemma {:induction false} WindowIsReported(cfg: Settings, created: int, ops: seq<Op>)
    requires 0 < cfg.interval && Timed(created, ops)
    ensures var s := Run(cfg, Fresh(created), ops);
            PushesSinceClosing(cfg, Fresh(created), ops) <= cfg.capacity ==>
              && |s.window.closed| == PushesSinceClosing(cfg, Fresh(created), ops)
              && W.Summary(s.window) == Reported(ops[LastClosing(cfg, Fresh(created), ops)..])
  {
    hide Step, Advance, Pushes, Closes, Reported;
    if ops == [] {
      NothingReported();
    } else {
      var before, op := ops[..|ops| - 1], ops[|ops| - 1];
      var s, k := Run(cfg, Fresh(created), before), LastClosing(cfg, Fresh(created), before);
      WindowIsReported(cfg, created, before);
      TickIsPast(cfg, created, before);
      CompleteStep(cfg, s, op, PushesSinceClosing(cfg, Fresh(created), before), Reported(before[k..]));
      ReportedFrom(ops, k);
      NothingReported();
      assert ops[|ops|..] == [];
    }
  }

  lemma NothingReported()
    ensures Reported([]) == multiset{}
  {}

  lemma UpToDateWindowIsReported(cfg: Settings, created: int, ops: seq<Op>, at: int)
    requires cfg.Valid() && Timed(created, ops) && LastTime(created, ops) <= at
    requires var s := Run(cfg, Fresh(created), ops);
             PushesSinceClosing(cfg, Fresh(created), ops) + Pushes(cfg, s, at) <= cfg.capacity
    ensures W.Summary(Advance(cfg, Run(cfg, Fresh(created), ops), at).window)
         == Reported(ops[LastClosing(cfg, Fresh(created), ops)..])
  {
    hide Step, Advance, Pushes, Reported, PushesSinceClosing, LastClosing, Run, W.Summary;
    WindowIsReported(cfg, created, ops);
    TickIsPast(cfg, created, ops);
    AdvanceLosesNothing(cfg, Run(cfg, Fresh(created), ops), at);
  }

  /** In every timed run, while no bucket has been refused since creation or the last closing: a closed breaker
      refuses exactly if enough results were reported since then and too many of them were failures. */
  lemma ClosedAnswerIff(cfg: Settings, created: int, ops: seq<Op>, at: int)
    requires cfg.Valid() && Timed(created, ops) && LastTime(created, ops) <= at
    requires Run(cfg, Fresh(created), ops).phase == Closed
    requires var s := Run(cfg, Fresh(created), ops);
             PushesSinceClosing(cfg, Fresh(created), ops) + Pushes(cfg, s, at) <= cfg.capacity
    ensures var s, r := Run(cfg, Fresh(created), ops), Reported(ops[LastClosing(cfg, Fresh(created), ops)..]);
            !Admits(cfg, s, Allow(at)) <==> TooManyFailures(cfg, r)
  {
    hide Step, Advance, Pushes, Reported, Admits, PushesSinceClosing, LastClosing, Run, W.Summary, TooManyFailures;
    UpToDateWindowIsReported(cfg, created, ops, at);
    ClosedAnswer(cfg, Run(cfg, Fresh(created), ops), at);
  }

  // --- Open ---

  predicate Trips(cfg: Settings, s: State, op: Op)
    requires 0 < cfg.interval
  {
    s.phase != Open && Step(cfg, s, op).phase == Open
  }

  /** How many operations of the run precede and include the last one that opened the breaker. */
  function LastTrip(cfg: Settings, s: State, ops: seq<Op>): (k: nat)
    requires 0 < cfg.interval
    ensures k <= |ops|
  {
    if ops == [] then 0
    else
      var before := ops[..|ops| - 1];
      if Trips(cfg, Run(cfg, s, before), ops[|ops| - 1]) then |ops| else LastTrip(cfg, s, before)
  }

  lemma OpenStep(cfg: Settings, s: State, op: Op)
    requires cfg.Valid() && Step(cfg, s, op).phase == Open
    ensures Step(cfg, s, op).openUntil == if Trips(cfg, s, op) then op.at + cfg.openDuration else s.openUntil
  {
    AdvanceFrame(cfg, s, op.at);
  }

  lemma {:induction false} OpenUntilIsTrip(cfg: Settings, created: int, ops: seq<Op>)
    requires cfg.Valid() && Run(cfg, Fresh(created), ops).phase == Open
    ensures var k := LastTrip(cfg, Fresh(created), ops);
            0 < k && Run(cfg, Fresh(created), ops).openUntil == ops[k - 1].at + cfg.openDuration
  {
    hide Step;
    var before, op := ops[..|ops| - 1], ops[|ops| - 1];
    OpenStep(cfg, Run(cfg, Fresh(created), before), op);
    if !Trips(cfg, Run(cfg, Fresh(created), before), op) {
      OpenUntilIsTrip(cfg, created, before);
    }
  }

  lemma OpenAnswer(cfg: Settings, s: State, at: int)
    requires cfg.Valid() && s.phase == Open
    ensures Admits(cfg, s, Allow(at)) <==> at > s.openUntil
    ensures var t := Step(cfg, s, Allow(at));
            if at > s.openUntil then
              t.phase == HalfOpen && t.halfOpenSince == at && t.probeUsed == 1 && t.probeSuccess == 0
            else t == s.(window := t.window, lastTick := t.lastTick)
  {
    AdvanceFrame(cfg, s, at);
  }

  /** In every run an open breaker refuses exactly until openDuration has passed since the operation that
      opened it; the first later call is admitted and makes it half-open. */
  lemma OpenAnswerIff(cfg: Settings, created: int, ops: seq<Op>, at: int)
    requires cfg.Valid() && Run(cfg, Fresh(created), ops).phase == Open
    ensures var s, k := Run(cfg, Fresh(created), ops), LastTrip(cfg, Fresh(created), ops);
            && 0 < k
            && (Admits(cfg, s, Allow(at)) <==> at > ops[k - 1].at + cfg.openDuration)
            && (Step(cfg, s, Allow(at)).phase == if at > ops[k - 1].at + cfg.openDuration then HalfOpen else Open)
  {
    hide Step, Admits;
    OpenUntilIsTrip(cfg, created, ops);
    OpenAnswer(cfg, Run(cfg, Fresh(created), ops), at);
  }

  // --- HalfOpen ---

  lemma HalfOpenAnswer(cfg: Settings, s: State, at: int)
    requires cfg.Valid() && s.phase == HalfOpen
    ensures Admits(cfg, s, Allow(at))
       <==> at - s.halfOpenSince <= cfg.halfOpenMaxDuration && s.probeUsed < cfg.halfOpenAllowed
    ensures var t := Step(cfg, s, Allow(at));
            if at - s.halfOpenSince > cfg.halfOpenMaxDuration then
              t.phase == Open && t.openUntil == at + cfg.openDuration
            else
              t == s.(window := t.window, lastTick := t.lastTick,
                      probeUsed := s.probeUsed + if s.probeUsed < cfg.halfOpenAllowed then 1 else 0)
  {
    AdvanceFrame(cfg, s, at);
  }

  /** How many were admitted since the last half-open entry, the call that made it included. */
  function AdmittedSinceEntry(cfg: Settings, s: State, ops: seq<Op>): int
    requires 0 < cfg.interval
  {
    var e := LastEntry(cfg, s, ops);
    if e == 0 then 0 else Admitted(cfg, s, ops) - Admitted(cfg, s, ops[..e - 1])
  }

  /** How one operation changes the entry time and the probes used. */
  lemma ProbeStep(cfg: Settings, s: State, op: Op)
    requires cfg.Valid() && Step(cfg, s, op).phase == HalfOpen
    ensures var t := Step(cfg, s, op);
            if EntersHalfOpen(cfg, s, op) then t.halfOpenSince == op.at && t.probeUsed == 1 && Admits(cfg, s, op)
            else
              && s.phase == HalfOpen && t.halfOpenSince == s.halfOpenSince
              && t.probeUsed == s.probeUsed + if Admits(cfg, s, op) then 1 else 0
  {
    AdvanceFrame(cfg, s, op.at);
  }

  lemma {:induction false} ProbesAreAdmitted(cfg: Settings, created: int, ops: seq<Op>)
    requires cfg.Valid() && Run(cfg, Fresh(created), ops).phase == HalfOpen
    ensures var s, e := Run(cfg, Fresh(created), ops), LastEntry(cfg, Fresh(created), ops);
            0 < e && s.halfOpenSince == ops[e - 1].at && s.probeUsed == AdmittedSinceEntry(cfg, Fresh(created), ops)
  {
    hide Step, Admits, EntersHalfOpen;
    var before, op := ops[..|ops| - 1], ops[|ops| - 1];
    var s := Run(cfg, Fresh(created), before);
    ProbeStep(cfg, s, op);
    if !EntersHalfOpen(cfg, s, op) {
      ProbesAreAdmitted(cfg, created, before);
      var e := LastEntry(cfg, Fresh(created), before);
      assert ops[..e - 1] == before[..e - 1];
    }
  }

  /** In every run a half-open breaker admits exactly within halfOpenMaxDuration of its entry and while fewer
      than halfOpenAllowed were admitted since; later it opens for the full time. */
  lemma HalfOpenAnswerIff(cfg: Settings, created: int, ops: seq<Op>, at: int)
    requires cfg.Valid() && Run(cfg, Fresh(created), ops).phase == HalfOpen
    ensures var s, e := Run(cfg, Fresh(created), ops), LastEntry(cfg, Fresh(created), ops);
            var t := Step(cfg, s, Allow(at));
            && 0 < e
            && (Admits(cfg, s, Allow(at))
                <==> at - ops[e - 1].at <= cfg.halfOpenMaxDuration
                     && AdmittedSinceEntry(cfg, Fresh(created), ops) < cfg.halfOpenAllowed)
            && (if at - ops[e - 1].at > cfg.halfOpenMaxDuration
                then t.phase == Open && t.openUntil == at + cfg.openDuration
                else t.phase == HalfOpen)
  {
    hide Step, Admits;
    ProbesAreAdmitted(cfg, created, ops);
    HalfOpenAnswer(cfg, Run(cfg, Fresh(created), ops), at);
  }

  // --- Results ---

  /** In a closed or open breaker a result is counted in the window brought up to date, and nothing else
      happens. */
  lemma ReportWhenNotHalfOpen(cfg: Settings, s: State, at: int, m: W.Metric)
    requires 0 < cfg.interval && s.phase != HalfOpen
    ensures var a, t := Advance(cfg, s, at), Step(cfg, s, Result(at, m));
            && t == s.(window := t.window, lastTick := a.lastTick)
            && t.window == W.State(a.window.closed, a.window.current + multiset{m})
  {
    AdvanceFrame(cfg, s, at);
  }

  lemma ReportStep(cfg: Settings, s: State, at: int, m: W.Metric)
    requires cfg.Valid() && s.phase == HalfOpen && s.probeSuccess < cfg.halfOpenAllowed
    ensures var a, t := Advance(cfg, s, at), Step(cfg, s, Result(at, m));
            match m
            case NETWORK_FAILURE => t.phase == Open && t.openUntil == at + cfg.openDuration
            case TIMEOUT => t.phase == Open && t.openUntil == at + cfg.openDuration
            case BUSINESS_FAILURE => t == s.(window := t.window, lastTick := a.lastTick)
            case SUCCESS =>
              if s.probeSuccess + 1 == cfg.halfOpenAllowed then t.phase == Closed && t.window == W.FRESH
              else t == s.(window := t.window, lastTick := a.lastTick, probeSuccess := s.probeSuccess + 1)
    ensures var a, t := Advance(cfg, s, at), Step(cfg, s, Result(at, m));
            t.phase != Closed ==> t.window == W.State(a.window.closed, a.window.current + multiset{m})
  {
    AdvanceFrame(cfg, s, at);
  }

  /** In every reachable half-open state a result opens the breaker exactly if it is a network failure or a
      timeout, and closes it exactly if it is the halfOpenAllowed-th success reported since the entry. A business
      failure, like an earlier success, leaves it half-open with its entry time and probes as they were. */
  lemma HalfOpenReportIff(cfg: Settings, created: int, ops: seq<Op>, at: int, m: W.Metric)
    requires cfg.Valid() && Run(cfg, Fresh(created), ops).phase == HalfOpen
    ensures var s, e := Run(cfg, Fresh(created), ops), LastEntry(cfg, Fresh(created), ops);
            var t := Step(cfg, s, Result(at, m));
            && (t.phase == Open <==> m == W.NETWORK_FAILURE || m == W.TIMEOUT)
            && (t.phase == Closed
                <==> m == W.SUCCESS && Reported(ops[e..])[W.SUCCESS] + 1 == cfg.halfOpenAllowed)
            && (t.phase == HalfOpen ==>
                  && t.halfOpenSince == s.halfOpenSince && t.openUntil == s.openUntil && t.probeUsed == s.probeUsed
                  && t.probeSuccess == s.probeSuccess + if m == W.SUCCESS then 1 else 0)
  {
    hide Step;
    ProbesCounted(cfg, Fresh(created), ops);
    ReportStep(cfg, Run(cfg, Fresh(created), ops), at, m);
  }
}
