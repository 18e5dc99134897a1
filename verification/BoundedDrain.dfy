/** With bounded retries (maxRetries >= 0) and no new callbacks, the worker of
    internal/ctrl/worker/crd_worker.go:69-105 empties its queue in a bounded number of process calls. */
module BoundedDrain {
  import opened WorkQueues
  import opened EventKeys
  import opened Containers
  import opened CrdWorkers

  /** Between process calls; at a key whose cache entry has not been looked up; making API calls, or none, for
      it; about to be done with it. */
  datatype Worker = Idle | Picked(key: string) | Calling(key: string, fallible: bool) | Settled(key: string)

  /** `cached` are the names of the cached containers. */
  datatype State = State(queue: Queue, worker: Worker, cached: set<string>) {
    predicate Dirty(k: string) {
      k in queue.dirty
    }

    predicate Waiting(k: string) {
      k in queue.waiting
    }

    /** How many copies of the key are still to be processed: one queued, one waiting. */
    function Copies(k: string): nat {
      (if Dirty(k) then 1 else 0) + (if Waiting(k) then 1 else 0)
    }

    predicate InHand(k: string) {
      worker == Picked(k) || worker == Calling(k, false) || worker == Calling(k, true)
    }

    /** The process call under way can still fail. */
    predicate OpenToFailure(k: string) {
      (worker == Picked(k) && CanFail(cached, k)) || worker == Calling(k, true)
    }
  }

  const START := State(EMPTY, Idle, {})

  /** Only a Delete, and an Update of a cached container, makes API calls that may fail. */
  predicate CanFail(cached: set<string>, k: string) {
    var parsed := ParseEventKey(k);
    parsed.Ok? && (parsed.event.eventType == DELETE
                   || (parsed.event.eventType == UPDATE && parsed.event.containerName in cached))
  }

  /** These are exactly the keys for which some API failures make processing the event an error. */
  lemma CanFailIff(cache: map<string, Container>, c: Cluster, labelKey: string, k: string)
    ensures CanFail(cache.Keys, k)
       <==> ParseEventKey(k).Ok? && exists f :: ProcessEvent(cache, c, labelKey, ParseEventKey(k).event, f).1
  {
    hide ParseEventKey, Pass, PassFails;
    if CanFail(cache.Keys, k) {
      assert ProcessEvent(cache, c, labelKey, ParseEventKey(k).event, NO_FAULTS.(listDeployments := true)).1;
    }
  }

  /** Callbacks change the cache and queue keys, and delays end, at any time, also while the worker is at a key. */
  datatype Move =
    | Callback(key: string)
    | Recache(cached: set<string>)
    | Fire(key: string)
    | Pick
    | Look
    | Settle(failed: bool)
    | Done

  predicate Enabled(s: State, m: Move) {
    match m
    case Callback(_) => true
    case Recache(_) => true
    case Fire(k) => k in s.queue.waiting
    case Pick => s.worker.Idle? && s.queue.ready != []
    case Look => s.worker.Picked?
    case Settle(failed) => s.worker.Calling? && (failed ==> s.worker.fallible)
    case Done => s.worker.Settled?
  }

  function DoMove(s: State, m: Move, maxRetries: nat): State
    requires Enabled(s, m)
  {
    var q := s.queue;
    match m
    case Callback(k) => s.(queue := Add(q, k))
    case Recache(cached) => s.(cached := cached)
    case Fire(k) => s.(queue := WorkQueues.Fire(q, k))
    case Pick => s.(queue := Get(q), worker := Picked(q.ready[0]))
    case Look => s.(worker := Calling(s.worker.key, CanFail(s.cached, s.worker.key)))
    case Settle(failed) =>
      s.(queue := CrdWorkers.Settle(q, s.worker.key, failed, maxRetries), worker := Settled(s.worker.key))
    case Done => s.(queue := WorkQueues.Done(q, s.worker.key), worker := Idle)
  }

  /** Whether the moves can be made one after the other. */
  predicate Possible(s: State, moves: seq<Move>, maxRetries: nat)
    decreases moves
  {
    moves == [] || (Enabled(s, moves[0]) && Possible(DoMove(s, moves[0], maxRetries), moves[1..], maxRetries))
  }

  function After(s: State, moves: seq<Move>, maxRetries: nat): State
    requires Possible(s, moves, maxRetries)
    decreases moves
  {
    if moves == [] then s else After(DoMove(s, moves[0], maxRetries), moves[1..], maxRetries)
  }

  function ProcessCalls(moves: seq<Move>): nat {
    if moves == [] then 0 else (if moves[0].Pick? then 1 else 0) + ProcessCalls(moves[1..])
  }

  predicate External(m: Move) {
    m.Callback? || m.Recache?
  }

  predicate NoCallbacks(moves: seq<Move>) {
    forall m :: m in moves ==> !External(m)
  }

  /** The retry counters are within the bound, and the key in hand is the one being processed. */
  ghost predicate Sound(s: State, maxRetries: nat) {
    && s.queue.Valid() && s.queue.processing == (if s.worker.Idle? then {} else {s.worker.key})
    && forall k :: k in s.queue.requeues ==> s.queue.requeues[k] <= maxRetries
  }

  lemma MoveKeepsSound(s: State, m: Move, maxRetries: nat)
    requires Sound(s, maxRetries) && Enabled(s, m)
    ensures Sound(DoMove(s, m, maxRetries), maxRetries)
  {
    hide Queue.Valid, CanFail;
    var q := s.queue;
    match m {
      case Callback(k) => QueueStaysValid(q, k);
      case Recache(_) =>
      case Fire(k) => QueueStaysValid(q, k);
      case Pick => QueueStaysValid(q, q.ready[0]);
      case Look =>
      case Settle(failed) => QueueStaysValid(q, s.worker.key);
      case Done => QueueStaysValid(q, s.worker.key);
    }
  }

  /** The retry counter of a key never exceeds the bound, callbacks or not. */
  lemma {:induction false} RequeuesBounded(s: State, moves: seq<Move>, maxRetries: nat, k: string)
    requires Sound(s, maxRetries) && Possible(s, moves, maxRetries)
    ensures Sound(After(s, moves, maxRetries), maxRetries)
    ensures After(s, moves, maxRetries).queue.NumRequeues(k) <= maxRetries
    decreases moves
  {
    hide DoMove, Enabled;
    if moves != [] {
      MoveKeepsSound(s, moves[0], maxRetries);
      RequeuesBounded(DoMove(s, moves[0], maxRetries), moves[1..], maxRetries, k);
    }
  }

  // --- The bound ---

  /** How many more process calls a key can take, with r retries behind it. A delayed copy that comes due
      while the key is being processed is queued again behind it, so that a key with two copies can be
      processed twice for every retry; and a success resets r. A key that cannot fail is processed once for
      every copy; a call for it that began while it still could may put one more back. */
  function Weight(s: State, maxRetries: nat, k: string): int {
    var r, n := s.queue.NumRequeues(k), s.Copies(k);
    if CanFail(s.cached, k) then
      if s.OpenToFailure(k) then
        if n == 0 then maxRetries - r else if n == 1 then 2 * maxRetries + 1 - r else 2 * maxRetries + 2
      else if s.InHand(k) then
        if n == 0 then 0 else if n == 1 then maxRetries + 1 else 2 * maxRetries + 2
      else
        if n == 0 then 0 else if n == 1 then maxRetries + 1 - r else 2 * maxRetries + 2 - r
    else if s.OpenToFailure(k) && r < maxRetries && n < 2 then n + 1
    else n
  }

  function Weights(s: State, maxRetries: nat): string -> int {
    k => Weight(s, maxRetries, k)
  }

  ghost function Sum(f: string -> int, keys: set<string>): int {
    if keys == {} then 0
    else
      var k :| k in keys;
      f(k) + Sum(f, keys - {k})
  }

  lemma {:induction false} SumSplit(f: string -> int, keys: set<string>, k: string)
    requires k in keys
    ensures Sum(f, keys) == f(k) + Sum(f, keys - {k})
  {
    var j :| j in keys && Sum(f, keys) == f(j) + Sum(f, keys - {j});
    if j != k {
      SumSplit(f, keys - {j}, k);
      SumSplit(f, keys - {k}, j);
      assert keys - {j} - {k} == keys - {k} - {j};
    }
  }

  lemma {:induction false} SumCompare(f: string -> int, g: string -> int, keys: set<string>)
    requires forall k :: k in keys ==> f(k) <= g(k)
    ensures Sum(f, keys) <= Sum(g, keys)
    ensures Sum(f, keys) == Sum(g, keys) <==> forall k :: k in keys ==> f(k) == g(k)
  {
    if k :| k in keys {
      SumSplit(f, keys, k);
      SumSplit(g, keys, k);
      SumCompare(f, g, keys - {k});
    }
  }

  lemma SumAtOne(f: string -> int, g: string -> int, keys: set<string>, k: string)
    requires k in keys && forall j :: j in keys && j != k ==> f(j) == g(j)
    ensures Sum(f, keys) - Sum(g, keys) == f(k) - g(k)
  {
    SumSplit(f, keys, k);
    SumSplit(g, keys, k);
    SumCompare(f, g, keys - {k});
  }

  function Pending(s: State): set<string> {
    s.queue.dirty + s.queue.waiting
  }

  /** The keys that can still be processed or are being processed. */
  function Involved(s: State): set<string> {
    Pending(s) + if s.worker.Picked? || s.worker.Calling? then {s.worker.key} else {}
  }

  lemma WeightsPositive(s: State, maxRetries: nat, k: string)
    requires Sound(s, maxRetries)
    ensures 0 <= Weight(s, maxRetries, k)
    ensures k in Pending(s) ==> 0 < Weight(s, maxRetries, k)
    ensures k !in Involved(s) ==> Weight(s, maxRetries, k) == 0
  {
    hide CanFail;
  }

  lemma TotalPositive(s: State, maxRetries: nat, keys: set<string>)
    requires Sound(s, maxRetries)
    ensures 0 <= Sum(Weights(s, maxRetries), keys)
    ensures Sum(Weights(s, maxRetries), keys) == 0 ==> keys !! Pending(s)
    ensures keys !! Involved(s) ==> Sum(Weights(s, maxRetries), keys) == 0
  {
    hide Weight, Sound, Involved, Pending;
    forall k ensures 0 <= Weight(s, maxRetries, k) && (k in Pending(s) ==> 0 < Weight(s, maxRetries, k))
                     && (k !in Involved(s) ==> Weight(s, maxRetries, k) == 0)
    {
      WeightsPositive(s, maxRetries, k);
    }
    SumCompare(k => 0, Weights(s, maxRetries), keys);
    SumOfZeros(keys);
  }

  lemma {:induction false} SumOfZeros(keys: set<string>)
    ensures Sum(k => 0, keys) == 0
  {
    if k :| k in keys {
      SumSplit(k => 0, keys, k);
      SumOfZeros(keys - {k});
    }
  }

  /** The key a move is about. */
  function Subject(s: State, m: Move): string
    requires Enabled(s, m) && !m.Recache?
  {
    match m
    case Callback(k) => k
    case Fire(k) => k
    case Look => s.worker.key
    case Pick => s.queue.ready[0]
    case Settle(_) => s.worker.key
    case Done => s.worker.key
  }

  function Cost(m: Move): nat {
    if m.Pick? then 1 else 0
  }

  lemma FirstIsMember(s: seq<string>)
    ensures s != [] ==> s[0] in s
  {}

  lemma WeightStep(s: State, m: Move, maxRetries: nat, k: string)
    requires Sound(s, maxRetries) && Enabled(s, m) && !External(m)
    ensures Weight(DoMove(s, m, maxRetries), maxRetries, k)
         <= Weight(s, maxRetries, k) - if k == Subject(s, m) then Cost(m) else 0
  {
    hide CanFail;
    FirstIsMember(s.queue.ready);
  }

  lemma OthersWeigh(s: State, m: Move, maxRetries: nat, k: string)
    requires Sound(s, maxRetries) && Enabled(s, m) && !External(m) && k != Subject(s, m)
    ensures Weight(DoMove(s, m, maxRetries), maxRetries, k) == Weight(s, maxRetries, k)
  {
    hide CanFail;
  }

  /** Every process call uses up the total; nothing else adds to it. */
  lemma TotalStep(s: State, m: Move, maxRetries: nat, keys: set<string>)
    requires Sound(s, maxRetries) && Enabled(s, m) && !External(m) && Subject(s, m) in keys
    ensures Sum(Weights(DoMove(s, m, maxRetries), maxRetries), keys) <= Sum(Weights(s, maxRetries), keys) - Cost(m)
  {
    hide DoMove, Weight, Sound;
    var t := DoMove(s, m, maxRetries);
    forall j ensures j != Subject(s, m) ==> Weight(t, maxRetries, j) == Weight(s, maxRetries, j) {
      if j != Subject(s, m) {
        OthersWeigh(s, m, maxRetries, j);
      }
    }
    WeightStep(s, m, maxRetries, Subject(s, m));
    SumAtOne(Weights(t, maxRetries), Weights(s, maxRetries), keys, Subject(s, m));
  }

  lemma MoveKeepsKeys(s: State, m: Move, maxRetries: nat, keys: set<string>)
    requires Sound(s, maxRetries) && Enabled(s, m) && !External(m) && Involved(s) <= keys
    ensures Involved(DoMove(s, m, maxRetries)) <= keys
    ensures !m.Done? ==> Subject(s, m) in keys
  {
    FirstIsMember(s.queue.ready);
  }

  lemma DoneKeepsWeights(s: State, maxRetries: nat, k: string)
    requires Sound(s, maxRetries) && s.worker.Settled?
    ensures Weight(DoMove(s, Done, maxRetries), maxRetries, k) == Weight(s, maxRetries, k)
  {
    hide CanFail;
  }

  lemma DoneKeepsTotal(s: State, maxRetries: nat, keys: set<string>)
    requires Sound(s, maxRetries) && s.worker.Settled?
    ensures Sum(Weights(DoMove(s, Done, maxRetries), maxRetries), keys) == Sum(Weights(s, maxRetries), keys)
  {
    hide DoMove, Weight, Sound;
    forall k ensures Weight(DoMove(s, Done, maxRetries), maxRetries, k) == Weight(s, maxRetries, k) {
      DoneKeepsWeights(s, maxRetries, k);
    }
    SumCompare(Weights(DoMove(s, Done, maxRetries), maxRetries), Weights(s, maxRetries), keys);
  }

  lemma {:induction false} RunUsesUpTotal(s: State, moves: seq<Move>, maxRetries: nat, keys: set<string>)
    requires Sound(s, maxRetries) && Possible(s, moves, maxRetries) && NoCallbacks(moves) && Involved(s) <= keys
    ensures var last := After(s, moves, maxRetries);
            && Sound(last, maxRetries) && Involved(last) <= keys
            && ProcessCalls(moves) + Sum(Weights(last, maxRetries), keys) <= Sum(Weights(s, maxRetries), keys)
    decreases moves
  {
    hide DoMove, Sound, Weights, Involved, Sum;
    if moves != [] {
      var m := moves[0];
      assert m in moves;
      MoveKeepsSound(s, m, maxRetries);
      MoveKeepsKeys(s, m, maxRetries, keys);
      if m.Done? {
        DoneKeepsTotal(s, maxRetries, keys);
      } else {
        TotalStep(s, m, maxRetries, keys);
      }
      RunUsesUpTotal(DoMove(s, m, maxRetries), moves[1..], maxRetries, keys);
    }
  }

  /** Whichever API calls fail: once callbacks stop, there are never more process calls than the weights
      add up to, and when that many have been made nothing is pending any more. */
  lemma DrainsWithinTotal(s: State, moves: seq<Move>, maxRetries: nat)
    requires Sound(s, maxRetries) && Possible(s, moves, maxRetries) && NoCallbacks(moves)
    ensures var bound := Sum(Weights(s, maxRetries), Involved(s));
            && ProcessCalls(moves) <= bound
            && (ProcessCalls(moves) == bound ==> Pending(After(s, moves, maxRetries)) == {})
  {
    RunUsesUpTotal(s, moves, maxRetries, Involved(s));
    TotalPositive(After(s, moves, maxRetries), maxRetries, Involved(s));
  }

  // --- The bound is reached ---

  /** The costliest move: let a delayed copy come due behind the key in hand, and fail; but succeed when two
      copies are pending already, which resets the counter. */
  lemma CostliestMove(s: State, maxRetries: nat) returns (m: Move)
    requires Sound(s, maxRetries) && (Pending(s) != {} || !s.worker.Idle?)
    ensures Enabled(s, m) && !External(m)
    ensures var k := Subject(s, m);
            Weight(DoMove(s, m, maxRetries), maxRetries, k) == Weight(s, maxRetries, k) - Cost(m)
  {
    hide CanFail;
    match s.worker {
      case Idle =>
        FirstIsMember(s.queue.ready);
        if s.queue.ready != [] {
          m := Pick;
        } else {
          var k :| k in s.queue.waiting;
          m := Fire(k);
        }
      case Picked(_) => m := Look;
      case Calling(k, fallible) =>
        m := if fallible && s.Waiting(k) && !s.Dirty(k) then Fire(k) else Settle(fallible && !s.Waiting(k));
      case Settled(_) => m := Done;
    }
  }

  lemma CostliestStep(s: State, m: Move, maxRetries: nat, keys: set<string>)
    requires Sound(s, maxRetries) && Enabled(s, m) && Involved(s) <= keys && !External(m)
    requires var k := Subject(s, m);
             Weight(DoMove(s, m, maxRetries), maxRetries, k) == Weight(s, maxRetries, k) - Cost(m)
    ensures Sum(Weights(DoMove(s, m, maxRetries), maxRetries), keys) == Sum(Weights(s, maxRetries), keys) - Cost(m)
  {
    hide DoMove, Weight, Sound, Involved;
    var t := DoMove(s, m, maxRetries);
    if m.Done? {
      DoneKeepsTotal(s, maxRetries, keys);
    } else {
      MoveKeepsKeys(s, m, maxRetries, keys);
      forall j ensures j != Subject(s, m) ==> Weight(t, maxRetries, j) == Weight(s, maxRetries, j) {
        if j != Subject(s, m) {
          OthersWeigh(s, m, maxRetries, j);
        }
      }
      SumAtOne(Weights(t, maxRetries), Weights(s, maxRetries), keys, Subject(s, m));
    }
  }

  function Phase(s: State): nat {
    match s.worker
    case Idle => 0
    case Picked(_) => 3
    case Calling(_, _) => 2
    case Settled(_) => 1
  }

  lemma MoveRanks(s: State, m: Move, maxRetries: nat)
    requires Sound(s, maxRetries) && Enabled(s, m) && !External(m)
    ensures var t := DoMove(s, m, maxRetries);
            m.Pick? || Phase(t) < Phase(s) || (Phase(t) == Phase(s) && |t.queue.waiting| < |s.queue.waiting|)
  {}

  /** The bound is exact: from every state there is a run without callbacks that takes exactly that many
      process calls. */
  lemma {:induction false} BoundIsReached(s: State, maxRetries: nat, keys: set<string>) returns (moves: seq<Move>)
    requires Sound(s, maxRetries) && Involved(s) <= keys
    ensures Possible(s, moves, maxRetries) && NoCallbacks(moves)
    ensures ProcessCalls(moves) == Sum(Weights(s, maxRetries), keys)
    decreases Sum(Weights(s, maxRetries), keys), Phase(s), |s.queue.waiting|
  {
    hide DoMove, Sound, Weight, Weights, Sum, Enabled;
    TotalPositive(s, maxRetries, keys);
    if Pending(s) == {} && s.worker.Idle? {
      assert Involved(s) == {};
      moves := [];
    } else {
      var m := CostliestMove(s, maxRetries);
      CostliestStep(s, m, maxRetries, keys);
      MoveRanks(s, m, maxRetries);
      MoveKeepsSound(s, m, maxRetries);
      MoveKeepsKeys(s, m, maxRetries, keys);
      TotalPositive(DoMove(s, m, maxRetries), maxRetries, keys);
      var rest := BoundIsReached(DoMove(s, m, maxRetries), maxRetries, keys);
      moves := [m] + rest;
      assert moves[1..] == rest;
    }
  }

  /** As long as a key is pending the worker gets to it: after at most four moves, none of them a callback or
      a failure, the next process call begins. */
  lemma PendingMakesProgress(s: State, maxRetries: nat) returns (moves: seq<Move>)
    requires Sound(s, maxRetries) && Pending(s) != {}
    ensures |moves| <= 1 + Phase(s) && Possible(s, moves, maxRetries) && NoCallbacks(moves) && Settle(true) !in moves
    ensures Enabled(After(s, moves, maxRetries), Pick)
    decreases Phase(s)
  {
    hide CanFail, Queue.Valid;
    if s.worker.Idle? {
      moves := IdleMakesProgress(s, maxRetries);
    } else {
      var m := if s.worker.Picked? then Look else if s.worker.Calling? then Settle(false) else Done;
      MoveKeepsSound(s, m, maxRetries);
      var rest := PendingMakesProgress(DoMove(s, m, maxRetries), maxRetries);
      moves := [m] + rest;
      assert moves[1..] == rest;
    }
  }

  lemma IdleMakesProgress(s: State, maxRetries: nat) returns (moves: seq<Move>)
    requires Sound(s, maxRetries) && Pending(s) != {} && s.worker.Idle?
    ensures |moves| <= 1 && Possible(s, moves, maxRetries) && NoCallbacks(moves) && Settle(true) !in moves
    ensures Enabled(After(s, moves, maxRetries), Pick)
  {
    FirstIsMember(s.queue.ready);
    if s.queue.ready != [] {
      moves := [];
    } else {
      var k :| k in s.queue.waiting;
      moves := [Fire(k)];
      assert moves[1..] == [];
    }
  }

  // --- Retries left ---

  /** What the retry limit alone suggests: a key that can fail takes at most its remaining tries, of which the
      call that is under way is one; after a call that cannot fail they start afresh. A key that cannot fail
      takes one call for every copy. */
  function TriesLeft(s: State, maxRetries: nat): string -> int {
    k =>
      if !CanFail(s.cached, k) then Weight(s, maxRetries, k)
      else if s.OpenToFailure(k) then maxRetries - s.queue.NumRequeues(k)
      else if s.Copies(k) == 0 then 0
      else if s.InHand(k) then maxRetries + 1
      else maxRetries + 1 - s.queue.NumRequeues(k)
  }

  /** The key is at one place at most: queued, waiting, or in a process call that can still fail. */
  predicate AtOnePlace(s: State, k: string) {
    s.Copies(k) + (if s.OpenToFailure(k) then 1 else 0) <= 1
  }

  lemma TriesBelowWeight(s: State, maxRetries: nat, k: string)
    requires Sound(s, maxRetries)
    ensures TriesLeft(s, maxRetries)(k) <= Weight(s, maxRetries, k)
    ensures TriesLeft(s, maxRetries)(k) == Weight(s, maxRetries, k) <==> (CanFail(s.cached, k) ==> AtOnePlace(s, k))
  {
    hide CanFail;
  }

  lemma PlacesAreInvolved(s: State, k: string)
    ensures k !in Involved(s) ==> AtOnePlace(s, k)
  {
    hide CanFail;
  }

  /** In every state, the process calls still to come stay within the sum of the tries left exactly when no key
      that can fail is at two places at once. */
  lemma DrainsWithinTriesLeftIff(s: State, maxRetries: nat)
    requires Sound(s, maxRetries)
    ensures (forall moves :: Possible(s, moves, maxRetries) && NoCallbacks(moves) ==>
               ProcessCalls(moves) <= Sum(TriesLeft(s, maxRetries), Involved(s)))
       <==> forall k :: CanFail(s.cached, k) ==> AtOnePlace(s, k)
  {
    hide Weight, Sound, Possible, ProcessCalls, NoCallbacks, Sum, CanFail, AtOnePlace, Involved, TriesLeft;
    var tries, weights, keys := TriesLeft(s, maxRetries), Weights(s, maxRetries), Involved(s);
    forall k
      ensures tries(k) <= weights(k)
      ensures tries(k) == weights(k) <==> (CanFail(s.cached, k) ==> AtOnePlace(s, k))
      ensures k !in keys ==> AtOnePlace(s, k)
    {
      TriesBelowWeight(s, maxRetries, k);
      PlacesAreInvolved(s, k);
    }
    SumCompare(tries, weights, keys);
    forall moves | Possible(s, moves, maxRetries) && NoCallbacks(moves)
      ensures ProcessCalls(moves) <= Sum(weights, keys)
    {
      DrainsWithinTotal(s, moves, maxRetries);
    }
    var worst := BoundIsReached(s, maxRetries, keys);
  }

  function RetriesLeft(s: State, maxRetries: nat): string -> int {
    k => maxRetries + 1 - s.queue.NumRequeues(k)
  }

  /** Between process calls, if no key is both queued and waiting, the queue drains within the sum over the
      pending keys of maxRetries + 1 - NumRequeues. */
  lemma DrainsWithinRetriesLeft(s: State, moves: seq<Move>, maxRetries: nat)
    requires Sound(s, maxRetries) && s.worker.Idle? && s.queue.dirty !! s.queue.waiting
    requires Possible(s, moves, maxRetries) && NoCallbacks(moves)
    ensures ProcessCalls(moves) <= Sum(RetriesLeft(s, maxRetries), Pending(s))
  {
    hide Sum, Possible, NoCallbacks, ProcessCalls;
    forall k | k in Pending(s) ensures Weight(s, maxRetries, k) <= RetriesLeft(s, maxRetries)(k) {
      hide CanFail;
    }
    SumCompare(Weights(s, maxRetries), RetriesLeft(s, maxRetries), Pending(s));
    DrainsWithinTotal(s, moves, maxRetries);
    assert Involved(s) == Pending(s);
  }

  /** Doubly pending keys arise: a key that can fail does so, and the callback queues it again before its delay
      is over. */
  lemma DoublyPendingIsReachable(k: string, cached: set<string>)
    requires CanFail(cached, k)
    ensures var moves := [Recache(cached), Callback(k), Pick, Look, Settle(true), Done, Callback(k)];
            && Possible(START, moves, 1)
            && var s := After(START, moves, 1);
               s.queue.dirty == {k} && s.queue.waiting == {k} && s.queue.NumRequeues(k) == 1
               && s.worker.Idle? && s.cached == cached
  {
    hide CanFail, Possible, After;
    var s0 := DoMove(START, Recache(cached), 1);
    var s1 := DoMove(s0, Callback(k), 1);
    var s2 := DoMove(s1, Pick, 1);
    var s3 := DoMove(s2, Look, 1);
    var s4 := DoMove(s3, Settle(true), 1);
    var s5 := DoMove(s4, Done, 1);
    var s6 := DoMove(s5, Callback(k), 1);
    LastMove(s5, Callback(k), 1);
    FirstMove(s4, Done, [Callback(k)], 1);
    FirstMove(s3, Settle(true), [Done, Callback(k)], 1);
    FirstMove(s2, Look, [Settle(true), Done, Callback(k)], 1);
    FirstMove(s1, Pick, [Look, Settle(true), Done, Callback(k)], 1);
    FirstMove(s0, Callback(k), [Pick, Look, Settle(true), Done, Callback(k)], 1);
    FirstMove(START, Recache(cached), [Callback(k), Pick, Look, Settle(true), Done, Callback(k)], 1);
    var moves := [Recache(cached), Callback(k), Pick, Look, Settle(true), Done, Callback(k)];
    assert moves == [Recache(cached)] + [Callback(k), Pick, Look, Settle(true), Done, Callback(k)];
    assert moves[1..] == [Callback(k)] + [Pick, Look, Settle(true), Done, Callback(k)];
    assert moves[2..] == [Pick] + [Look, Settle(true), Done, Callback(k)];
    assert moves[3..] == [Look] + [Settle(true), Done, Callback(k)];
    assert moves[4..] == [Settle(true)] + [Done, Callback(k)];
    assert moves[5..] == [Done] + [Callback(k)];
  }

  lemma FirstMove(s: State, m: Move, rest: seq<Move>, maxRetries: nat)
    requires Enabled(s, m) && Possible(DoMove(s, m, maxRetries), rest, maxRetries)
    ensures Possible(s, [m] + rest, maxRetries)
    ensures After(s, [m] + rest, maxRetries) == After(DoMove(s, m, maxRetries), rest, maxRetries)
  {
    assert ([m] + rest)[1..] == rest;
  }

  lemma LastMove(s: State, m: Move, maxRetries: nat)
    requires Enabled(s, m)
    ensures Possible(s, [m], maxRetries) && After(s, [m], maxRetries) == DoMove(s, m, maxRetries)
  {
    assert [m][1..] == [];
  }
}
