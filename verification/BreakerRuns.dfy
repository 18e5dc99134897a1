/** What holds of every run of one endpoint's breaker. */
module BreakerRuns {
  import W = Window
  import opened SubBreakerSpec

  /** Advancing the window changes nothing else. */
  lemma AdvanceFrame(cfg: Settings, s: State, now: int)
    requires 0 < cfg.interval
    ensures var a := Advance(cfg, s, now); a == s.(window := a.window, lastTick := a.lastTick)
  {}

  /** A decision leaves the window alone and never closes the breaker; it opens a closed one only on evidence. */
  lemma DecideFrame(cfg: Settings, s: State, now: int)
    ensures var t := Decide(cfg, s, now).0;
            && t.window == s.window && t.lastTick == s.lastTick
            && (t.phase == Closed ==> s.phase == Closed)
            && (s.phase == Closed && t.phase != Closed ==>
                  |W.Summary(s.window)| >= cfg.minRequestCount && RateExceeded(cfg, W.Summary(s.window)))
  {}

  /** Booking a result adds it to the window, unless it closes the breaker, which clears the window. */
  lemma BookFrame(cfg: Settings, s: State, now: int, m: W.Metric)
    ensures var t := Book(cfg, s, now, m);
            && t.lastTick == s.lastTick
            && (s.phase == Closed ==> t.phase == Closed)
            && t.window == if s.phase != Closed && t.phase == Closed then W.FRESH
                           else W.Apply(cfg.capacity, s.window, W.Record(m))
  {}

  predicate Opens(cfg: Settings, s: State, op: Op)
    requires 0 < cfg.interval
  {
    s.phase == Closed && Step(cfg, s, op).phase == Open
  }

  predicate EntersHalfOpen(cfg: Settings, s: State, op: Op)
    requires 0 < cfg.interval
  {
    s.phase == Open && Step(cfg, s, op).phase == HalfOpen
  }

  predicate Closes(cfg: Settings, s: State, op: Op)
    requires 0 < cfg.interval
  {
    s.phase != Closed && Step(cfg, s, op).phase == Closed
  }

  // --- Probe rate ---

  function Entries(cfg: Settings, s: State, ops: seq<Op>): nat
    requires 0 < cfg.interval
  {
    if ops == [] then 0
    else
      var before := ops[..|ops| - 1];
      Entries(cfg, s, before) + if EntersHalfOpen(cfg, Run(cfg, s, before), ops[|ops| - 1]) then 1 else 0
  }

  function Admitted(cfg: Settings, s: State, ops: seq<Op>): nat
    requires 0 < cfg.interval
  {
    if ops == [] then 0
    else
      var before := ops[..|ops| - 1];
      Admitted(cfg, s, before) + if Admits(cfg, Run(cfg, s, before), ops[|ops| - 1]) then 1 else 0
  }

  /** No state of the run is Closed. */
  predicate StaysTripped(cfg: Settings, s: State, ops: seq<Op>)
    requires 0 < cfg.interval
  {
    Run(cfg, s, ops).phase != Closed && (ops == [] || StaysTripped(cfg, s, ops[..|ops| - 1]))
  }

  /** After n entries and a admissions since the opening at t0, with the clock at `now`. */
  ghost predicate RateInv(cfg: Settings, s: State, t0: int, n: nat, a: nat, now: int) {
    match s.phase
    case Closed => false
    case Open =>
      && a <= cfg.halfOpenAllowed * n
      && n * cfg.openDuration <= s.openUntil - cfg.openDuration - t0
      && (n >= 1 ==> n * cfg.openDuration < s.openUntil - cfg.openDuration - t0)
      && s.openUntil - cfg.openDuration <= now
    case HalfOpen =>
      && n >= 1
      && 0 <= s.probeUsed <= cfg.halfOpenAllowed
      && a <= cfg.halfOpenAllowed * (n - 1) + s.probeUsed
      && n * cfg.openDuration < s.halfOpenSince - t0
      && s.halfOpenSince <= now
  }

  lemma RateStep(cfg: Settings, s: State, op: Op, t0: int, n: nat, a: nat, now: int)
    requires cfg.Valid() && RateInv(cfg, s, t0, n, a, now) && now <= op.at
    requires Step(cfg, s, op).phase != Closed
    ensures RateInv(cfg, Step(cfg, s, op), t0,
                    n + (if EntersHalfOpen(cfg, s, op) then 1 else 0),
                    a + (if Admits(cfg, s, op) then 1 else 0), op.at)
  {
    AdvanceFrame(cfg, s, op.at);
    assert (n + 1) * cfg.openDuration == n * cfg.openDuration + cfg.openDuration;
    assert cfg.halfOpenAllowed * n == cfg.halfOpenAllowed * (n - 1) + cfg.halfOpenAllowed;
  }

  lemma RateStart(cfg: Settings, s: State, t0: int)
    requires s.phase == Open && s.openUntil == t0 + cfg.openDuration
    ensures RateInv(cfg, s, t0, 0, 0, t0)
  {}

  lemma {:induction false} RateRun(cfg: Settings, s: State, t0: int, ops: seq<Op>)
    requires cfg.Valid() && s.phase == Open && s.openUntil == t0 + cfg.openDuration
    requires Timed(t0, ops) && StaysTripped(cfg, s, ops)
    ensures RateInv(cfg, Run(cfg, s, ops), t0, Entries(cfg, s, ops), Admitted(cfg, s, ops), LastTime(t0, ops))
  {
    hide RateInv, Step, Admits, EntersHalfOpen;
    if ops == [] {
      RateStart(cfg, s, t0);
    } else {
      var before := ops[..|ops| - 1];
      RateRun(cfg, s, t0, before);
      RateStep(cfg, Run(cfg, s, before), ops[|ops| - 1], t0,
               Entries(cfg, s, before), Admitted(cfg, s, before), LastTime(t0, before));
    }
  }

  /** From an opening until the next closing, whatever is reported: at most `halfOpenAllowed` admissions
      for each half-open entry, and more than `openDuration` of time for each entry. */
  lemma ProbeRateBound(cfg: Settings, s: State, opening: Op, ops: seq<Op>)
    requires cfg.Valid() && Opens(cfg, s, opening)
    requires Timed(opening.at, ops) && StaysTripped(cfg, Step(cfg, s, opening), ops)
    ensures var n := Entries(cfg, Step(cfg, s, opening), ops);
            && Admitted(cfg, Step(cfg, s, opening), ops) <= cfg.halfOpenAllowed * n
            && (n >= 1 ==> n * cfg.openDuration < LastTime(opening.at, ops) - opening.at)
  {
    hide Step, Opens, RateInv, EntersHalfOpen, Admits;
    var tripped := Step(cfg, s, opening);
    OpeningTrips(cfg, s, opening);
    RateRun(cfg, tripped, opening.at, ops);
    RateBounds(cfg, Run(cfg, tripped, ops), opening.at, Entries(cfg, tripped, ops), Admitted(cfg, tripped, ops),
               LastTime(opening.at, ops));
  }

  lemma OpeningTrips(cfg: Settings, s: State, opening: Op)
    requires 0 < cfg.interval && Opens(cfg, s, opening)
    ensures Step(cfg, s, opening).phase == Open
    ensures Step(cfg, s, opening).openUntil == opening.at + cfg.openDuration
  {
    AdvanceFrame(cfg, s, opening.at);
  }

  lemma RateBounds(cfg: Settings, s: State, t0: int, n: nat, a: nat, now: int)
    requires cfg.Valid() && RateInv(cfg, s, t0, n, a, now)
    ensures a <= cfg.halfOpenAllowed * n
    ensures n >= 1 ==> n * cfg.openDuration < now - t0
  {
    assert cfg.halfOpenAllowed * n == cfg.halfOpenAllowed * (n - 1) + cfg.halfOpenAllowed;
  }

  // --- Recovery ---

  /** Deadlines and half-open entries never lie further ahead than the clock accounts for, and a
      half-open breaker is short of the successes that would have closed it. */
  ghost predicate Timely(cfg: Settings, s: State, now: int) {
    && (s.phase == Open ==> s.openUntil <= now + cfg.openDuration)
    && (s.phase == HalfOpen ==> s.halfOpenSince <= now && 0 <= s.probeSuccess < cfg.halfOpenAllowed)
  }

  lemma TimelyStep(cfg: Settings, s: State, op: Op, now: int)
    requires cfg.Valid() && Timely(cfg, s, now) && now <= op.at
    ensures Timely(cfg, Step(cfg, s, op), op.at)
  {
    AdvanceFrame(cfg, s, op.at);
  }

  lemma {:induction false} TimelyRun(cfg: Settings, created: int, ops: seq<Op>)
    requires cfg.Valid() && Timed(created, ops)
    ensures Timely(cfg, Run(cfg, Fresh(created), ops), LastTime(created, ops))
  {
    if ops != [] {
      var before := ops[..|ops| - 1];
      TimelyRun(cfg, created, before);
      TimelyStep(cfg, Run(cfg, Fresh(created), before), ops[|ops| - 1], LastTime(created, before));
    }
  }

  lemma {:induction false} ResultsLeaveOpenAlone(cfg: Settings, s: State, results: seq<Op>)
    requires 0 < cfg.interval && s.phase == Open && forall i :: 0 <= i < |results| ==> results[i].Result?
    ensures Run(cfg, s, results).phase == Open && Run(cfg, s, results).openUntil == s.openUntil
  {
    if results != [] {
      var before := results[..|results| - 1];
      ResultsLeaveOpenAlone(cfg, s, before);
      AdvanceFrame(cfg, Run(cfg, s, before), results[|results| - 1].at);
    }
  }

  /** The breaker never gets stuck: after any run, one of two well-spaced calls is admitted. */
  lemma Recovery(cfg: Settings, created: int, ops: seq<Op>, t1: int, between: seq<Op>, t2: int)
    requires cfg.Valid() && Timed(created, ops)
    requires t1 > LastTime(created, ops) + cfg.halfOpenMaxDuration
    requires forall i :: 0 <= i < |between| ==> between[i].Result?
    requires Timed(t1, between) && LastTime(t1, between) <= t2
    requires t2 > t1 + cfg.openDuration
    ensures var s := Run(cfg, Fresh(created), ops);
            var s1 := Step(cfg, s, Allow(t1));
            Admits(cfg, s, Allow(t1)) || Admits(cfg, Run(cfg, s1, between), Allow(t2))
  {
    hide Step, Admits;
    var s := Run(cfg, Fresh(created), ops);
    var s1 := Step(cfg, s, Allow(t1));
    TimelyRun(cfg, created, ops);
    if !Admits(cfg, s, Allow(t1)) {
      RefusedIsOpen(cfg, s, t1, LastTime(created, ops));
      ResultsLeaveOpenAlone(cfg, s1, between);
      ExpiredAdmits(cfg, Run(cfg, s1, between), t2);
    }
  }

  lemma RefusedIsOpen(cfg: Settings, s: State, t1: int, now: int)
    requires cfg.Valid() && Timely(cfg, s, now) && t1 > now + cfg.halfOpenMaxDuration
    requires !Admits(cfg, s, Allow(t1))
    ensures var s1 := Step(cfg, s, Allow(t1));
            s1.phase == Open && s1.openUntil <= t1 + cfg.openDuration
  {}

  lemma ExpiredAdmits(cfg: Settings, s: State, now: int)
    requires cfg.Valid() && s.phase == Open && s.openUntil < now
    ensures Admits(cfg, s, Allow(now))
  {}

  // --- Closing ---

  /** How many operations of the run precede and include its last half-open entry. */
  function LastEntry(cfg: Settings, s: State, ops: seq<Op>): (e: nat)
    requires 0 < cfg.interval
    ensures e <= |ops|
  {
    if ops == [] then 0
    else
      var before := ops[..|ops| - 1];
      if EntersHalfOpen(cfg, Run(cfg, s, before), ops[|ops| - 1]) then |ops| else LastEntry(cfg, s, before)
  }

  /** All results reported by the operations. */
  function Reported(ops: seq<Op>): W.Results {
    if ops == [] then multiset{}
    else
      var before := Reported(ops[..|ops| - 1]);
      if ops[|ops| - 1].Result? then before + multiset{ops[|ops| - 1].m} else before
  }

  lemma ReportedFrom(ops: seq<Op>, k: nat)
    requires k < |ops|
    ensures Reported(ops[k..]) == if ops[|ops| - 1].Result?
                                  then Reported(ops[..|ops| - 1][k..]) + multiset{ops[|ops| - 1].m}
                                  else Reported(ops[..|ops| - 1][k..])
  {
    assert ops[k..][..|ops| - k - 1] == ops[..|ops| - 1][k..];
  }

  /** e operations into the run a half-open entry was made; the breaker has been half-open ever since. */
  ghost predicate HalfOpenFrom(cfg: Settings, s: State, ops: seq<Op>, e: nat)
    requires 0 < cfg.interval
  {
    && 0 < e <= |ops|
    && EntersHalfOpen(cfg, Run(cfg, s, ops[..e - 1]), ops[e - 1])
    && forall j :: e <= j <= |ops| ==> Run(cfg, s, ops[..j]).phase == HalfOpen
  }

  lemma HalfOpenOrigin(cfg: Settings, s: State, op: Op)
    requires 0 < cfg.interval
    ensures Step(cfg, s, op).phase == HalfOpen ==> s.phase == HalfOpen || EntersHalfOpen(cfg, s, op)
  {}

  lemma HalfOpenExtends(cfg: Settings, s: State, ops: seq<Op>, e: nat)
    requires 0 < cfg.interval && ops != [] && HalfOpenFrom(cfg, s, ops[..|ops| - 1], e)
    requires Run(cfg, s, ops).phase == HalfOpen
    ensures HalfOpenFrom(cfg, s, ops, e)
  {
    hide Step, EntersHalfOpen;
    var before := ops[..|ops| - 1];
    assert before[..e - 1] == ops[..e - 1];
    assert ops[..|ops|] == ops;
    forall j | e <= j <= |before| ensures Run(cfg, s, ops[..j]).phase == HalfOpen {
      assert before[..j] == ops[..j];
    }
  }

  lemma {:induction false} HalfOpenStretch(cfg: Settings, s: State, ops: seq<Op>)
    requires 0 < cfg.interval && s.phase == Closed
    ensures Run(cfg, s, ops).phase == HalfOpen ==> HalfOpenFrom(cfg, s, ops, LastEntry(cfg, s, ops))
  {
    hide Step;
    if ops != [] {
      var before, op := ops[..|ops| - 1], ops[|ops| - 1];
      HalfOpenStretch(cfg, s, before);
      HalfOpenOrigin(cfg, Run(cfg, s, before), op);
      if Run(cfg, s, ops).phase == HalfOpen {
        if EntersHalfOpen(cfg, Run(cfg, s, before), op) {
          assert ops[..|ops|] == ops;
        } else {
          HalfOpenExtends(cfg, s, ops, LastEntry(cfg, s, before));
        }
      }
    }
  }

  /** In HalfOpen the probe count is exactly the successes since the entry, and nothing has failed. */
  ghost predicate Probing(cfg: Settings, s: State, since: W.Results) {
    s.phase == HalfOpen ==> since[W.SUCCESS] == s.probeSuccess < cfg.halfOpenAllowed && W.Failures(since) == 0
  }

  lemma ProbingStep(cfg: Settings, s: State, op: Op, since: W.Results)
    requires cfg.Valid() && Probing(cfg, s, since)
    ensures Probing(cfg, Step(cfg, s, op),
                    if EntersHalfOpen(cfg, s, op) then multiset{}
                    else if op.Result? then since + multiset{op.m} else since)
  {
    AdvanceFrame(cfg, s, op.at);
  }

  /** How the results reported since the last entry change with one more operation. */
  lemma LastEntryStep(cfg: Settings, s: State, ops: seq<Op>)
    requires 0 < cfg.interval && ops != []
    ensures var before, op := ops[..|ops| - 1], ops[|ops| - 1];
            var since := Reported(before[LastEntry(cfg, s, before)..]);
            Reported(ops[LastEntry(cfg, s, ops)..])
            == if EntersHalfOpen(cfg, Run(cfg, s, before), op) then multiset{}
               else if op.Result? then since + multiset{op.m} else since
  {
    var before := ops[..|ops| - 1];
    if EntersHalfOpen(cfg, Run(cfg, s, before), ops[|ops| - 1]) {
      assert ops[|ops|..] == [];
    } else {
      ReportedFrom(ops, LastEntry(cfg, s, before));
    }
  }

  lemma {:induction false} ProbesCounted(cfg: Settings, s: State, ops: seq<Op>)
    requires cfg.Valid() && s.phase == Closed
    ensures Probing(cfg, Run(cfg, s, ops), Reported(ops[LastEntry(cfg, s, ops)..]))
  {
    if ops != [] {
      var before, op := ops[..|ops| - 1], ops[|ops| - 1];
      var e := LastEntry(cfg, s, before);
      ProbesCounted(cfg, s, before);
      ProbingStep(cfg, Run(cfg, s, before), op, Reported(before[e..]));
      LastEntryStep(cfg, s, ops);
    }
  }

  lemma ClosingStep(cfg: Settings, s: State, op: Op, since: W.Results)
    requires cfg.Valid() && Probing(cfg, s, since) && Closes(cfg, s, op)
    ensures s.phase == HalfOpen && op.Result? && op.m == W.SUCCESS
    ensures since[W.SUCCESS] + 1 == cfg.halfOpenAllowed && W.Failures(since) == 0
  {}

  lemma FailureStep(cfg: Settings, s: State, at: int, m: W.Metric, since: W.Results)
    requires cfg.Valid() && Probing(cfg, s, since) && s.phase == HalfOpen
    requires m == W.NETWORK_FAILURE || m == W.TIMEOUT
    ensures var t := Step(cfg, s, Result(at, m));
            t.phase == Open && t.openUntil == at + cfg.openDuration
  {}

  /** Every closing is earned: the run was half-open since its last entry, exactly `halfOpenAllowed`
      successes came back since then, the last of them just now, and no network failure or timeout did. */
  lemma ClosingCertificate(cfg: Settings, created: int, ops: seq<Op>, closing: Op)
    requires cfg.Valid() && Closes(cfg, Run(cfg, Fresh(created), ops), closing)
    ensures var e := LastEntry(cfg, Fresh(created), ops);
            && HalfOpenFrom(cfg, Fresh(created), ops, e)
            && closing.Result? && closing.m == W.SUCCESS
            && Reported(ops[e..])[W.SUCCESS] + 1 == cfg.halfOpenAllowed
            && W.Failures(Reported(ops[e..])) == 0
  {
    var e := LastEntry(cfg, Fresh(created), ops);
    ProbesCounted(cfg, Fresh(created), ops);
    ClosingStep(cfg, Run(cfg, Fresh(created), ops), closing, Reported(ops[e..]));
    HalfOpenStretch(cfg, Fresh(created), ops);
  }

  /** A network failure or a timeout reported to a half-open breaker always opens it again. */
  lemma FailedProbeReopens(cfg: Settings, created: int, ops: seq<Op>, at: int, m: W.Metric)
    requires cfg.Valid() && Run(cfg, Fresh(created), ops).phase == HalfOpen
    requires m == W.NETWORK_FAILURE || m == W.TIMEOUT
    ensures var s := Step(cfg, Run(cfg, Fresh(created), ops), Result(at, m));
            s.phase == Open && s.openUntil == at + cfg.openDuration
  {
    var e := LastEntry(cfg, Fresh(created), ops);
    ProbesCounted(cfg, Fresh(created), ops);
    FailureStep(cfg, Run(cfg, Fresh(created), ops), at, m, Reported(ops[e..]));
  }

  // --- Opening ---

  /** How many operations of the run precede and include its last closing. */
  function LastClosing(cfg: Settings, s: State, ops: seq<Op>): (k: nat)
    requires 0 < cfg.interval
    ensures k <= |ops|
  {
    if ops == [] then 0
    else
      var before := ops[..|ops| - 1];
      if Closes(cfg, Run(cfg, s, before), ops[|ops| - 1]) then |ops| else LastClosing(cfg, s, before)
  }

  lemma PushBounded(capacity: nat, w: W.State, op: W.Op)
    requires op.Flush? || op.PushEmpty?
    ensures W.Summary(W.Apply(capacity, w, op)) <= W.Summary(w)
  {}

  lemma {:induction false} PushEmptiesBounded(capacity: nat, w: W.State, n: nat)
    ensures W.Summary(PushEmpties(capacity, w, n)) <= W.Summary(w)
  {
    if n > 0 {
      PushEmptiesBounded(capacity, w, n - 1);
      PushBounded(capacity, PushEmpties(capacity, w, n - 1), W.PushEmpty);
    }
  }

  lemma AdvanceBounded(cfg: Settings, s: State, now: int)
    requires 0 < cfg.interval
    ensures W.Summary(Advance(cfg, s, now).window) <= W.Summary(s.window)
  {
    if now - s.lastTick >= cfg.interval {
      var n := Pushes(cfg, s, now) - 1;
      PushEmptiesBounded(cfg.capacity, s.window, n);
      PushBounded(cfg.capacity, PushEmpties(cfg.capacity, s.window, n), W.Flush);
    }
  }

  /** The window never shows more than was reported since the last closing. */
  lemma {:induction false} WindowBounded(cfg: Settings, created: int, ops: seq<Op>)
    requires 0 < cfg.interval
    ensures W.Summary(Run(cfg, Fresh(created), ops).window) <= Reported(ops[LastClosing(cfg, Fresh(created), ops)..])
  {
    if ops != [] {
      var before, op := ops[..|ops| - 1], ops[|ops| - 1];
      var k := LastClosing(cfg, Fresh(created), before);
      var s := Run(cfg, Fresh(created), before);
      WindowBounded(cfg, created, before);
      AdvanceFrame(cfg, s, op.at);
      AdvanceBounded(cfg, s, op.at);
      ReportedFrom(ops, k);
      StepBounded(cfg, s, op, Reported(before[k..]));
    }
  }

  lemma StepBounded(cfg: Settings, s: State, op: Op, reported: W.Results)
    requires 0 < cfg.interval && W.Summary(s.window) <= reported
    ensures Closes(cfg, s, op) ==> Step(cfg, s, op).window == W.FRESH
    ensures !Closes(cfg, s, op) ==>
              W.Summary(Step(cfg, s, op).window) <= if op.Result? then reported + multiset{op.m} else reported
  {
    AdvanceFrame(cfg, s, op.at);
    AdvanceBounded(cfg, s, op.at);
    var a := Advance(cfg, s, op.at);
    match op
    case Allow(at) => DecideFrame(cfg, a, at);
    case Result(at, m) => BookFrame(cfg, a, at, m);
  }

  /** Every opening is earned: since creation or the last closing at least `minRequestCount` results were
      reported, and network failures and timeouts were more than the threshold's share of that minimum. */
  lemma NoPrematureOpening(cfg: Settings, created: int, ops: seq<Op>, opening: Op)
    requires cfg.Valid() && Opens(cfg, Run(cfg, Fresh(created), ops), opening)
    ensures var r := Reported(ops[LastClosing(cfg, Fresh(created), ops)..]);
            && opening.Allow?
            && |r| >= cfg.minRequestCount
            && W.Failures(r) as real > cfg.failureRateThreshold * cfg.minRequestCount as real
  {
    var s := Run(cfg, Fresh(created), ops);
    var r := Reported(ops[LastClosing(cfg, Fresh(created), ops)..]);
    WindowBounded(cfg, created, ops);
    OpeningNeedsFailures(cfg, s, opening, r);
  }

  lemma OpeningNeedsFailures(cfg: Settings, s: State, opening: Op, reported: W.Results)
    requires cfg.Valid() && Opens(cfg, s, opening) && W.Summary(s.window) <= reported
    ensures opening.Allow? && |reported| >= cfg.minRequestCount
    ensures W.Failures(reported) as real > cfg.failureRateThreshold * cfg.minRequestCount as real
  {
    AdvanceFrame(cfg, s, opening.at);
    AdvanceBounded(cfg, s, opening.at);
    var a := Advance(cfg, s, opening.at);
    var summary := W.Summary(a.window);
    match opening {
      case Allow(at) => DecideFrame(cfg, a, at);
      case Result(at, m) => BookFrame(cfg, a, at, m);
    }
    EvidenceScales(cfg, summary, reported);
  }

  lemma MoreResults(some: W.Results, all: W.Results)
    requires some <= all
    ensures |some| <= |all| && 0 <= W.Failures(some) <= W.Failures(all)
  {
    assert all == some + (all - some);
  }

  lemma EvidenceScales(cfg: Settings, summary: W.Results, reported: W.Results)
    requires cfg.Valid() && summary <= reported
    requires |summary| >= cfg.minRequestCount && RateExceeded(cfg, summary)
    ensures |reported| >= cfg.minRequestCount
    ensures W.Failures(reported) as real > cfg.failureRateThreshold * cfg.minRequestCount as real
  {
    hide W.Failures;
    MoreResults(summary, reported);
    RateScales(W.Failures(summary), |summary|, cfg.failureRateThreshold, cfg.minRequestCount, W.Failures(reported));
  }

  lemma RateScales(failures: int, total: int, threshold: real, minimum: int, more: int)
    requires failures <= more
    requires 1 <= minimum <= total && 0 <= failures
    requires failures as real / total as real > threshold
    ensures more as real > threshold * minimum as real
  {}

  // --- Bucket arithmetic ---

  function Zeros(n: nat): seq<W.Results> {
    seq(n, _ => multiset{})
  }

  function Min(a: int, b: int): int {
    if a <= b then a else b
  }

  lemma {:induction false} PushEmptiesFill(capacity: nat, w: W.State, n: nat)
    requires |w.closed| <= capacity
    ensures PushEmpties(capacity, w, n) == w.(closed := w.closed + Zeros(Min(n, capacity - |w.closed|)))
  {
    if n == 0 {
      assert w.closed + Zeros(0) == w.closed;
    } else {
      PushEmptiesFill(capacity, w, n - 1);
      if n <= capacity - |w.closed| {
        assert Zeros(n - 1) + [multiset{}] == Zeros(n);
      }
    }
  }

  /** One advance by k spans: the tick is then less than a span old; the ring gets empty buckets for all
      spans but one, as far as there is room, and then the current bucket iff room is still left. */
  lemma AdvanceArithmetic(cfg: Settings, s: State, now: int)
    requires 0 < cfg.interval && s.lastTick <= now && |s.window.closed| <= cfg.capacity
    ensures var k := Pushes(cfg, s, now);
            var a := Advance(cfg, s, now);
            var room := cfg.capacity - |s.window.closed|;
            && k == (now - s.lastTick) / cfg.interval
            && now - a.lastTick < cfg.interval
            && |a.window.closed| <= cfg.capacity
            && (k == 0 ==> a == s)
            && (k >= 1 ==>
                 && a.window.current == multiset{}
                 && a.window.closed == s.window.closed + Zeros(Min(k - 1, room))
                                       + (if k - 1 < room then [s.window.current] else []))
  {
    var gap := now - s.lastTick;
    SpansFloor(gap, cfg.interval);
    if gap >= cfg.interval {
      SpansIsQuotient(gap, cfg.interval);
      PushEmptiesFill(cfg.capacity, s.window, Pushes(cfg, s, now) - 1);
    }
  }

  function TotalPushes(cfg: Settings, s: State, ops: seq<Op>): nat
    requires 0 < cfg.interval
  {
    if ops == [] then 0
    else TotalPushes(cfg, s, ops[..|ops| - 1]) + Pushes(cfg, Run(cfg, s, ops[..|ops| - 1]), ops[|ops| - 1].at)
  }

  /** Rounding down at every advance never gains a bucket: over a whole run no more pushes are attempted
      than whole spans fit between creation and the last tick. */
  lemma {:induction false} PushesFitElapsedTime(cfg: Settings, created: int, ops: seq<Op>)
    requires 0 < cfg.interval
    ensures var tick := Run(cfg, Fresh(created), ops).lastTick;
            && created <= tick
            && TotalPushes(cfg, Fresh(created), ops) * cfg.interval <= tick - created
  {
    hide Step, Advance, Pushes;
    if ops != [] {
      var before, op := ops[..|ops| - 1], ops[|ops| - 1];
      var s := Run(cfg, Fresh(created), before);
      PushesFitElapsedTime(cfg, created, before);
      StepTick(cfg, s, op);
      AdvanceTick(cfg, s, op.at);
      AddSpans(TotalPushes(cfg, Fresh(created), before), Pushes(cfg, s, op.at), cfg.interval,
               s.lastTick - created, Advance(cfg, s, op.at).lastTick - s.lastTick);
    }
  }

  lemma StepTick(cfg: Settings, s: State, op: Op)
    requires 0 < cfg.interval
    ensures Step(cfg, s, op).lastTick == Advance(cfg, s, op.at).lastTick
  {}

  lemma AdvanceTick(cfg: Settings, s: State, now: int)
    requires 0 < cfg.interval
    ensures Pushes(cfg, s, now) * cfg.interval <= Advance(cfg, s, now).lastTick - s.lastTick
  {
    SpansFloor(now - s.lastTick, cfg.interval);
  }

  lemma AddSpans(p: nat, k: nat, d: int, x: int, y: int)
    requires 0 < d && p * d <= x && k * d <= y
    ensures (p + k) * d <= x + y
  {}

  /** The same bound with the division written out. */
  lemma PushesBelowFloor(cfg: Settings, created: int, ops: seq<Op>)
    requires 0 < cfg.interval
    ensures TotalPushes(cfg, Fresh(created), ops)
         <= (Run(cfg, Fresh(created), ops).lastTick - created) / cfg.interval
  {
    hide TotalPushes, Run;
    PushesFitElapsedTime(cfg, created, ops);
    BelowQuotient(TotalPushes(cfg, Fresh(created), ops), cfg.interval,
                  Run(cfg, Fresh(created), ops).lastTick - created);
  }

  lemma BelowQuotient(k: int, d: int, x: int)
    requires 0 < d && k * d <= x
    ensures k <= x / d
  {
    var q := x / d;
    assert q * d <= x < (q + 1) * d;
    ProductBelow(q, k, d, x);
  }
}
