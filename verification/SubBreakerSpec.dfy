/** The timed Closed/Open/HalfOpen machine of internal/cli/breaker/subbreaker.go, as values.
    Times are integers in nanoseconds; the failure rate is a real. */
module SubBreakerSpec {
  import W = Window

  const SECOND := 1_000_000_000
  const ZERO_TIME := -62_135_596_800 * SECOND  // Go's time.Time{}, the first of January of year 1

  datatype Options = Options(
    windowCapacity: int,
    halfOpenAllowed: int,
    minRequestCount: int,
    failureRateThreshold: real,
    halfOpenMaxDuration: int,
    openDuration: int)
  {
    /** What the code needs of its flags: a window it can allocate and divide by, room for one probe,
        and durations that do not run backwards. */
    predicate Valid() {
      1 <= windowCapacity && 1 <= halfOpenAllowed && 1 <= minRequestCount
      && 0 <= halfOpenMaxDuration && 0 <= openDuration
    }
  }

  datatype Settings = Settings(
    capacity: nat,
    halfOpenAllowed: int,
    minRequestCount: int,
    failureRateThreshold: real,
    interval: int,
    halfOpenMaxDuration: int,
    openDuration: int)
  {
    predicate Valid() {
      0 < capacity && 0 < interval && 1 <= halfOpenAllowed && 1 <= minRequestCount
      && 0 <= halfOpenMaxDuration && 0 <= openDuration
    }
  }

  /** The flag is both the number of buckets and, in seconds, the span of one bucket. */
  function NewSettings(opts: Options): (s: Settings)
    requires 1 <= opts.windowCapacity
    ensures opts.Valid() ==> s.Valid()
    ensures 0 < s.interval == s.capacity * SECOND
    ensures s.openDuration == opts.openDuration * SECOND && s.halfOpenMaxDuration == opts.halfOpenMaxDuration * SECOND
    ensures s.halfOpenAllowed == opts.halfOpenAllowed && s.minRequestCount == opts.minRequestCount
    ensures s.failureRateThreshold == opts.failureRateThreshold && s.capacity == opts.windowCapacity
  {
    Settings(opts.windowCapacity, opts.halfOpenAllowed, opts.minRequestCount, opts.failureRateThreshold,
             opts.windowCapacity * SECOND, opts.halfOpenMaxDuration * SECOND, opts.openDuration * SECOND)
  }

  datatype Phase = Closed | Open | HalfOpen

  datatype State = State(
    phase: Phase,
    openUntil: int,
    halfOpenSince: int,
    probeUsed: int,
    probeSuccess: int,
    lastTick: int,
    window: W.State)

  function Fresh(created: int): State {
    State(Closed, ZERO_TIME, ZERO_TIME, 0, 0, created, W.FRESH)
  }

  /** How many whole intervals fit into a gap, counted one by one. */
  function Spans(gap: int, interval: int): nat
    requires 0 < interval
    decreases gap
  {
    if gap < interval then 0 else 1 + Spans(gap - interval, interval)
  }

  /** How many bucket spans lie between the last tick and `now`; each of them is one push. */
  function Pushes(cfg: Settings, s: State, now: int): nat
    requires 0 < cfg.interval
  {
    Spans(now - s.lastTick, cfg.interval)
  }

  lemma {:induction false} SpansFloor(gap: int, interval: int)
    requires 0 < interval
    ensures var k: int := Spans(gap, interval);
            && (0 <= gap ==> k * interval <= gap)
            && gap < (k + 1) * interval
            && (gap < 0 ==> k == 0)
  {
    if gap >= interval {
      SpansFloor(gap - interval, interval);
      var k: int := Spans(gap - interval, interval);
      assert (k + 1) * interval == k * interval + interval;
      assert (k + 2) * interval == (k + 1) * interval + interval;
    }
  }

  lemma SpansIsQuotient(gap: int, interval: int)
    requires 0 < interval && 0 <= gap
    ensures Spans(gap, interval) == gap / interval
  {
    SpansFloor(gap, interval);
    QuotientUnique(gap, interval, Spans(gap, interval));
  }

  lemma QuotientUnique(x: int, d: int, k: int)
    requires 0 < d && k * d <= x < (k + 1) * d
    ensures k == x / d
  {
    var q := x / d;
    assert q * d <= x < (q + 1) * d;
    ProductBelow(k, q, d, x);
    ProductBelow(q, k, d, x);
  }

  lemma ProductBelow(a: int, b: int, d: int, x: int)
    requires 0 < d && b * d <= x < (a + 1) * d
    ensures b <= a
  {}

  function PushEmpties(capacity: nat, w: W.State, n: nat): W.State {
    if n == 0 then w else W.Apply(capacity, PushEmpties(capacity, w, n - 1), W.PushEmpty)
  }

  function Advance(cfg: Settings, s: State, now: int): State
    requires 0 < cfg.interval
  {
    if now - s.lastTick < cfg.interval then s
    else
      s.(window := W.Apply(cfg.capacity, PushEmpties(cfg.capacity, s.window, Pushes(cfg, s, now) - 1), W.Flush),
         lastTick := now)
  }

  /** More failures than the threshold allows; 0/0 is not above any threshold. */
  predicate RateExceeded(cfg: Settings, summary: W.Results) {
    |summary| != 0
    && W.Failures(summary) as real / |summary| as real > cfg.failureRateThreshold
  }

  function Trip(cfg: Settings, s: State, now: int): State {
    s.(phase := Open, openUntil := now + cfg.openDuration)
  }

  /** What `allowed` decides once time has been advanced. */
  function Decide(cfg: Settings, s: State, now: int): (State, bool) {
    match s.phase
    case Closed =>
      var summary := W.Summary(s.window);
      if |summary| >= cfg.minRequestCount && RateExceeded(cfg, summary) then (Trip(cfg, s, now), false)
      else (s, true)
    case Open =>
      if now <= s.openUntil then (s, false)
      else Probe(cfg, s.(phase := HalfOpen, halfOpenSince := now, probeUsed := 0, probeSuccess := 0), now)
    case HalfOpen => Probe(cfg, s, now)
  }

  function Probe(cfg: Settings, s: State, now: int): (State, bool) {
    if now - s.halfOpenSince > cfg.halfOpenMaxDuration then (Trip(cfg, s, now), false)
    else if s.probeUsed >= cfg.halfOpenAllowed then (s, false)
    else (s.(probeUsed := s.probeUsed + 1), true)
  }

  /** What `record` does once time has been advanced. */
  function Book(cfg: Settings, s: State, now: int, m: W.Metric): State {
    var recorded := s.(window := W.Apply(cfg.capacity, s.window, W.Record(m)));
    if recorded.phase != HalfOpen then recorded
    else Settle(cfg, Judge(cfg, recorded, now, m))
  }

  function Judge(cfg: Settings, s: State, now: int, m: W.Metric): State {
    match m
    case NETWORK_FAILURE => Trip(cfg, s, now)
    case TIMEOUT => Trip(cfg, s, now)
    case SUCCESS => s.(probeSuccess := s.probeSuccess + 1)
    case BUSINESS_FAILURE => s
  }

  function Settle(cfg: Settings, s: State): State {
    if s.probeSuccess >= cfg.halfOpenAllowed then s.(phase := Closed, window := W.FRESH) else s
  }

  function Allowed(cfg: Settings, s: State, now: int): (State, bool)
    requires 0 < cfg.interval
  {
    Decide(cfg, Advance(cfg, s, now), now)
  }

  function Report(cfg: Settings, s: State, now: int, m: W.Metric): State
    requires 0 < cfg.interval
  {
    Book(cfg, Advance(cfg, s, now), now, m)
  }

  // --- Runs ---

  datatype Op = Allow(at: int) | Result(at: int, m: W.Metric)

  function Step(cfg: Settings, s: State, op: Op): State
    requires 0 < cfg.interval
  {
    match op
    case Allow(at) => Allowed(cfg, s, at).0
    case Result(at, m) => Report(cfg, s, at, m)
  }

  predicate Admits(cfg: Settings, s: State, op: Op)
    requires 0 < cfg.interval
  {
    op.Allow? && Allowed(cfg, s, op.at).1
  }

  function Run(cfg: Settings, s: State, ops: seq<Op>): State
    requires 0 < cfg.interval
  {
    if ops == [] then s else Step(cfg, Run(cfg, s, ops[..|ops| - 1]), ops[|ops| - 1])
  }

  /** The time of the last operation, or `start` when there is none. */
  function LastTime(start: int, ops: seq<Op>): int {
    if ops == [] then start else ops[|ops| - 1].at
  }

  /** The clock is read under the lock, so it does not run backwards. */
  predicate Timed(start: int, ops: seq<Op>) {
    ops == [] || (Timed(start, ops[..|ops| - 1]) && LastTime(start, ops[..|ops| - 1]) <= ops[|ops| - 1].at)
  }
}
