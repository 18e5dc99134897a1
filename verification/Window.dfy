/** What the statistics window of internal/cli/breaker/counter.go holds, as values. */
module Window {

  datatype Metric = SUCCESS | BUSINESS_FAILURE | NETWORK_FAILURE | TIMEOUT

  /** One time bucket, as the results recorded in it. */
  type Results = multiset<Metric>

  function Failures(r: Results): nat {
    r[NETWORK_FAILURE] + r[TIMEOUT]
  }

  /** There are no results but the four kinds. */
  lemma FourKinds(r: Results)
    ensures |r| == r[SUCCESS] + r[BUSINESS_FAILURE] + r[NETWORK_FAILURE] + r[TIMEOUT]
  {
    var rest := r[SUCCESS := 0][BUSINESS_FAILURE := 0][NETWORK_FAILURE := 0][TIMEOUT := 0];
    assert |rest| == |r| - r[SUCCESS] - r[BUSINESS_FAILURE] - r[NETWORK_FAILURE] - r[TIMEOUT];
    forall m ensures rest[m] == 0 {
      match m
      case SUCCESS =>
      case BUSINESS_FAILURE =>
      case NETWORK_FAILURE =>
      case TIMEOUT =>
    }
    assert rest == multiset{};
  }

  /** Closed buckets, oldest first, and the bucket being filled. */
  datatype State = State(closed: seq<Results>, current: Results)

  const FRESH := State([], multiset{})

  datatype Op = Record(m: Metric) | Flush | PushEmpty | Reset

  /** A push onto a full ring is refused, and the counter ignores the refusal. */
  function Push(capacity: nat, closed: seq<Results>, r: Results): seq<Results> {
    if |closed| < capacity then closed + [r] else closed
  }

  function Apply(capacity: nat, w: State, op: Op): State {
    match op
    case Record(m) => w.(current := w.current + multiset{m})
    case Flush => State(Push(capacity, w.closed, w.current), multiset{})
    case PushEmpty => w.(closed := Push(capacity, w.closed, multiset{}))
    case Reset => FRESH
  }

  function Run(capacity: nat, w: State, ops: seq<Op>): State {
    if ops == [] then w
    else Apply(capacity, Run(capacity, w, ops[..|ops| - 1]), ops[|ops| - 1])
  }

  function Union(buckets: seq<Results>): Results {
    if buckets == [] then multiset{}
    else Union(buckets[..|buckets| - 1]) + buckets[|buckets| - 1]
  }

  function Summary(w: State): Results {
    Union(w.closed) + w.current
  }

  lemma UnionEmpty()
    ensures Union([]) == multiset{}
  {}

  lemma UnionAppend(buckets: seq<Results>, r: Results)
    ensures Union(buckets + [r]) == Union(buckets) + r
  {}

  lemma {:induction false} UnionConcat(a: seq<Results>, b: seq<Results>)
    ensures Union(a + b) == Union(a) + Union(b)
  {
    if b == [] {
      assert a + b == a;
    } else {
      UnionConcat(a, b[..|b| - 1]);
      assert (a + b)[..|a + b| - 1] == a + b[..|b| - 1];
    }
  }

  // --- An independent account of an operation log: what was pushed and what was recorded ---

  /** The part of the log after the last Reset. */
  function SinceReset(ops: seq<Op>): seq<Op> {
    if ops == [] || ops[|ops| - 1].Reset? then []
    else SinceReset(ops[..|ops| - 1]) + [ops[|ops| - 1]]
  }

  /** The results recorded in a log, collected one by one. */
  function Recorded(ops: seq<Op>): Results {
    if ops == [] then multiset{}
    else
      var before := Recorded(ops[..|ops| - 1]);
      if ops[|ops| - 1].Record? then before + multiset{ops[|ops| - 1].m} else before
  }

  /** The bucket still open at the end of a log: the results recorded after its last Flush. */
  function OpenBucket(ops: seq<Op>): Results {
    if ops == [] || ops[|ops| - 1].Flush? then multiset{}
    else
      var before := OpenBucket(ops[..|ops| - 1]);
      if ops[|ops| - 1].Record? then before + multiset{ops[|ops| - 1].m} else before
  }

  /** Every bucket a log without Reset pushes, accepted or refused. */
  function Pushed(ops: seq<Op>): seq<Results> {
    if ops == [] then []
    else
      var before := ops[..|ops| - 1];
      match ops[|ops| - 1]
      case Flush => Pushed(before) + [OpenBucket(before)]
      case PushEmpty => Pushed(before) + [multiset{}]
      case _ => Pushed(before)
  }

  function Kept(capacity: nat, pushed: seq<Results>): seq<Results> {
    if |pushed| <= capacity then pushed else pushed[..capacity]
  }

  function Refused(capacity: nat, pushed: seq<Results>): seq<Results> {
    if |pushed| <= capacity then [] else pushed[capacity..]
  }

  lemma KeptPush(capacity: nat, pushed: seq<Results>, r: Results)
    ensures Push(capacity, Kept(capacity, pushed), r) == Kept(capacity, pushed + [r])
  {
    if |pushed| >= capacity {
      assert (pushed + [r])[..capacity] == pushed[..capacity];
    }
  }

  /** What one more operation adds to the account. */
  lemma AccountNext(log: seq<Op>, op: Op)
    ensures Pushed(log + [op]) == if op.Flush? then Pushed(log) + [OpenBucket(log)]
                                  else if op.PushEmpty? then Pushed(log) + [multiset{}] else Pushed(log)
    ensures OpenBucket(log + [op]) == if op.Flush? then multiset{}
                                      else if op.Record? then OpenBucket(log) + multiset{op.m} else OpenBucket(log)
  {
    assert (log + [op])[..|log|] == log;
  }

  lemma SinceResetNext(ops: seq<Op>, op: Op)
    requires !op.Reset?
    ensures SinceReset([]) == [] && SinceReset(ops + [op]) == SinceReset(ops) + [op]
  {
    assert (ops + [op])[..|ops|] == ops;
  }

  lemma OperationKeepsAccount(capacity: nat, log: seq<Op>, op: Op)
    requires !op.Reset?
    ensures Apply(capacity, State(Kept(capacity, Pushed(log)), OpenBucket(log)), op)
         == State(Kept(capacity, Pushed(log + [op])), OpenBucket(log + [op]))
  {
    hide Pushed, OpenBucket, Kept, Push;
    AccountNext(log, op);
    match op
    case Flush => KeptPush(capacity, Pushed(log), OpenBucket(log));
    case PushEmpty => KeptPush(capacity, Pushed(log), multiset{});
    case _ =>
  }

  lemma EmptyAccount(capacity: nat)
    ensures Pushed([]) == [] && OpenBucket([]) == multiset{} && Kept(capacity, []) == []
  {}

  /** The ring holds exactly the first `capacity` buckets pushed since the last Reset, each with the
      value it had when it was pushed, and the current bucket is the one still open. */
  lemma {:induction false} WindowHoldsFirstPushed(capacity: nat, ops: seq<Op>)
    ensures var log := SinceReset(ops);
            Run(capacity, FRESH, ops) == State(Kept(capacity, Pushed(log)), OpenBucket(log))
  {
    hide Pushed, OpenBucket, Kept, Push;
    EmptyAccount(capacity);
    if ops != [] && !ops[|ops| - 1].Reset? {
      WindowHoldsFirstPushed(capacity, ops[..|ops| - 1]);
      OperationKeepsAccount(capacity, SinceReset(ops[..|ops| - 1]), ops[|ops| - 1]);
    }
  }

  lemma {:induction false} EveryResultIsPushedOrOpen(log: seq<Op>)
    ensures Recorded(log) == Union(Pushed(log)) + OpenBucket(log)
  {
    if log != [] {
      var before := log[..|log| - 1];
      EveryResultIsPushedOrOpen(before);
      match log[|log| - 1] {
        case Flush => UnionAppend(Pushed(before), OpenBucket(before));
        case PushEmpty => UnionAppend(Pushed(before), multiset{});
        case _ =>
      }
    }
  }

  /** Conservation: what was recorded since the last Reset is what the summary shows plus what the full
      ring refused. */
  lemma SummaryConservesResults(capacity: nat, ops: seq<Op>)
    ensures Recorded(SinceReset(ops))
         == Summary(Run(capacity, FRESH, ops)) + Union(Refused(capacity, Pushed(SinceReset(ops))))
  {
    WindowHoldsFirstPushed(capacity, ops);
    LogConserved(capacity, SinceReset(ops));
  }

  lemma LogConserved(capacity: nat, log: seq<Op>)
    ensures Recorded(log)
         == Summary(State(Kept(capacity, Pushed(log)), OpenBucket(log))) + Union(Refused(capacity, Pushed(log)))
  {
    var kept, refused := Kept(capacity, Pushed(log)), Refused(capacity, Pushed(log));
    EveryResultIsPushedOrOpen(log);
    assert kept + refused == Pushed(log);
    UnionConcat(kept, refused);
  }

  /** What a window that evicts its oldest buckets would hold. */
  function Recent(capacity: nat, pushed: seq<Results>): seq<Results> {
    if |pushed| <= capacity then pushed else pushed[|pushed| - capacity..]
  }

  /** The ring holds every bucket pushed since the last Reset, and refuses none, exactly while at most
      `capacity` were pushed. From then on it agrees with an evicting window only if the first buckets happen
      to equal the last ones. */
  lemma NothingRefusedIff(capacity: nat, ops: seq<Op>)
    ensures var pushed, ring := Pushed(SinceReset(ops)), Run(capacity, FRESH, ops).closed;
            && (Refused(capacity, pushed) == [] <==> |pushed| <= capacity)
            && (ring == pushed <==> |pushed| <= capacity)
            && (ring == Recent(capacity, pushed)
                <==> |pushed| <= capacity || pushed[..capacity] == pushed[|pushed| - capacity..])
  {
    WindowHoldsFirstPushed(capacity, ops);
  }

  /** One bucket of room, a timeout, a flush, a success, a flush: the timeout stays and the success is lost. */
  lemma OldBucketStays()
    ensures var ops := [Record(TIMEOUT), Flush, Record(SUCCESS), Flush];
            && Run(1, FRESH, ops).closed == [multiset{TIMEOUT}]
            && Recent(1, Pushed(SinceReset(ops))) == [multiset{SUCCESS}]
  {
    hide Pushed, OpenBucket, SinceReset;
    var l1: seq<Op> := [] + [Record(TIMEOUT)];
    var l2, l3 := l1 + [Flush], l1 + [Flush] + [Record(SUCCESS)];
    var l4 := l3 + [Flush];
    assert l4 == [Record(TIMEOUT), Flush, Record(SUCCESS), Flush];
    EmptyAccount(1);
    AccountNext([], Record(TIMEOUT));
    AccountNext(l1, Flush);
    AccountNext(l2, Record(SUCCESS));
    AccountNext(l3, Flush);
    assert OpenBucket(l1) == multiset{TIMEOUT} && OpenBucket(l3) == multiset{SUCCESS};
    assert Pushed(l2) == [multiset{TIMEOUT}] && Pushed(l4) == [multiset{TIMEOUT}, multiset{SUCCESS}];
    SinceResetNext([], Record(TIMEOUT));
    SinceResetNext(l1, Flush);
    SinceResetNext(l2, Record(SUCCESS));
    SinceResetNext(l3, Flush);
    WindowHoldsFirstPushed(1, l4);
  }
}
