# Mesh verification

A Dafny model of the three stateful protocols of the mesh, with proofs about all their runs.

**The circuit breaker** (`internal/cli/breaker`, `pkg/datastruct/queue`, the failover loop of
`internal/cli/proxy/http_transport.go`). A timed Closed/Open/HalfOpen machine over a ring of statistics buckets,
one per endpoint, driven by concurrent failover loops. The classes `SubBreaker`, `Counter`, `CircularQueue` and
`Breaker` keep the source's fields and pointers and are proved to refine machines on values
(`SubBreakerSpec`, `Window`, `BoundedFifo`, `BreakerSpec`); what holds of every run is proved of the machines
(`BreakerRuns`, `BreakerAnswers`, `Window`, `BreakerSpec`, `Admission`, `Probes`). `Admission` is the machine of any
number of failover loops; the method `LoadBalance` is proved against it as its run with one call.

**The container controller** (`internal/ctrl/worker`, `pkg/cache`). Informer callbacks change a cache and queue
keys; one worker turns each key into list and update calls that may fail at any point. `CrdWorkers` and `CrdHandlers`
are the methods against their specification; `Controller` is the same program cut at every cache, queue and API
access, interleaved with callbacks and other writers; `UndisturbedWorker` shows the two to agree, `ControllerProof` and
`ControllerProgress` that it converges, `CacheDelivery` that it converges to what was delivered, `RetryConvergence` and
`BoundedDrain` what retries do.

**Endpoint distribution** (`internal/resources`, `internal/ctrl/reconciler`, `internal/ctrl/grpcserver`,
`internal/ctrl/utils/sidecar.go`, `internal/cli/rpcclient`). A two-level index of endpoint slices, published as whole
merged services through bounded lossy channels to one subscriber, whose client takes over what arrives.
`EndpointIndex`, `Sidecars`, `GrpcServers`, `EndpointReconcilers` and `ClientCaches` are the classes; `Handshake` and
`MonotoneView` are the state machines for subscription and shutdown, and for the way from the index to the client.
`Deliveries` accounts for every event offered in the one, `ClientArrival` says what a client shows in the other.

Concurrent parts are state machines whose steps are the program's critical sections and single accesses; a run is any
schedule, and a step that is not enabled when its turn comes does nothing. Clock readings, the outcome of requests and
API calls, the order in which a map is iterated over, and the result of the initial list are parameters or choices of
the schedule.

## Assumptions

- Time is an integer number of nanoseconds that does not run backwards: `Breaker` reads the clock under its lock.
- `windowCapacity`, `halfOpenAllowed` and `minRequestCount` are at least 1 and durations are not negative where a
  lemma requires valid settings; the failure rate is a real number.
- The work queue of client-go is assumed as `WorkQueues` describes it: sets of dirty, processing and delayed keys and a
  counter of rate-limited additions. One worker runs, and all containers live in one namespace.
- A Kubernetes update is accepted only for the current version of an object.
- A client may subscribe again, or to other services, at any time and under its one id. Where `UpToDateUnlessDropped` says
  more than `UpToDateIff`, it assumes that a subscription starts after the client's earlier handlers have unregistered, and
  that no other one starts while it lasts.
- Containers are cached under their own names, as the handlers do it.
- The controller starts with nothing cached, container names are unique within a list, and others do not plant managed
  containers that differ from the cached ones (`ForeignIsSafe`). Under which condition an Add event is safe is proved
  (`AddConvergesIffSafe`), and required of the runs that are proved to converge.

## Where the code differs from its description

- The comment at `internal/cli/breaker/subbreaker.go:64-67` promises a window from which old buckets are evicted. Nothing
  dequeues: the ring keeps the first `capacity` buckets since the last Reset and refuses all later ones
  (`WindowHoldsFirstPushed`, `NothingRefusedIff`, `OldBucketStays`).
- `windowCapacity` is used as the number of buckets and as the number of seconds one bucket spans
  (`internal/cli/breaker/subbreaker.go:31`, `60`).
- `crd-worker-max-retries` is described as the maximum of retries per key (`internal/ctrl/options.go:34`). A key that a
  callback queues again while its delayed copy waits, or while a call for it is under way that can fail, may be processed
  more often than that: its two copies take turns, and a success resets the counter (`DrainsWithinTriesLeftIff`).
- `probeSuccess` is described as the number of successful probes (`internal/cli/breaker/subbreaker.go:43`), but counts any
  success reported in the half-open state, also that of a request admitted before the breaker opened
  (`StaleSuccessCloses`, `OnlyProbesCountIff`).
- A retried Update whose container is gone reports success without touching any workload, also when an earlier attempt
  got through to some of them (`VanishedContainerStrandsWorkloads`). The Delete event that follows repairs this.
- `OnDelete` cannot report that a service is gone: it reads the entry it has just removed
  (`internal/resources/endpointslice_cache.go:109-112`; `DeleteFailsIffLast`). So DELETED is never published.
- A server marked ready after its shutdown has begun accepts subscriptions again until it is stopped
  (`NobodyBeginsToServeIff`), and a sidecar
  id that is used twice leaves one handler without anybody to close its channel (`ReusedIdOrphans`,
  `LateExitOrphansSuccessor`).
- An update that changes the label of a slice of an unknown service leaves an empty entry behind (`RelabelLeavesTrap`).
- A client sends one id with every subscription, and the server keeps one registration per id: subscribing to a second
  service silences the first (`SecondServiceSilencesFirst`, `TakenOverFallsBehindIff`).

## Model

| member | source | states |
|---|---|---|
| BreakerRuns.ProbeRateBound | internal/cli/breaker/subbreaker.go:99-126 | In every timed run from an opening until the breaker closes again, whatever results come in: admissions are at most halfOpenAllowed per half-open entry, and n entries take more than n times openDuration |
| BreakerRuns.Recovery | internal/cli/breaker/subbreaker.go:86-128 | From every reachable state, of a call later than halfOpenMaxDuration after the last operation and a second one later than openDuration after the first, with only results in between, at least one is admitted: the breaker is never stuck |
| BreakerRuns.ClosingCertificate | internal/cli/breaker/subbreaker.go:104-126 | Every closing is a SUCCESS report that completes exactly halfOpenAllowed successes since the last half-open entry, during which the breaker was half-open throughout and no network failure or timeout was reported |
| BreakerRuns.FailedProbeReopens | internal/cli/breaker/subbreaker.go:147-159 | In every reachable half-open state a network failure or timeout ends in Open with a full openDuration, although the success count is compared after it |
| BreakerRuns.NoPrematureOpening | internal/cli/breaker/subbreaker.go:93-103 | Between creation or the last closing and an opening at least minRequestCount results were reported, and the failures among them exceed failureRateThreshold times minRequestCount, although the full window drops buckets |
| BreakerRuns.WindowBounded | internal/cli/breaker/subbreaker.go:68-84 | At any time the window shows no more results of any kind than were reported since creation or the last closing |
| BreakerRuns.AdvanceArithmetic | internal/cli/breaker/subbreaker.go:68-84 | An advance over k spans: k is the rounded-down quotient, the tick is less than a span old afterwards, and the current bucket survives exactly if size + k - 1 is below the capacity, behind the empty buckets for which there was room |
| BreakerRuns.PushesFitElapsedTime | internal/cli/breaker/subbreaker.go:68-84 | Over any run the pushes attempted, times the interval, do not exceed the time between creation and the last tick: rounding never gains a bucket |
| BreakerRuns.PushesBelowFloor | internal/cli/breaker/subbreaker.go:68-84 | The same bound as a rounded-down quotient |
| BreakerRuns.ProbesCounted | internal/cli/breaker/subbreaker.go:104-126 | In every reachable half-open state probeSuccess is the number of successes reported since the entry and is below halfOpenAllowed, and nothing has failed since |
| BreakerRuns.HalfOpenStretch | internal/cli/breaker/subbreaker.go:108-126 | A half-open breaker has been half-open in every state since its last entry |
| BreakerRuns.TimelyRun | internal/cli/breaker/subbreaker.go:86-128 | In every run deadlines lie at most openDuration ahead of the clock and half-open entries never in its future |
| BreakerAnswers.ClosedAnswer | internal/cli/breaker/subbreaker.go:93-103 | A closed breaker refuses, and opens for the full openDuration, exactly if the window brought up to date holds at least minRequestCount results of which network failures and timeouts make up more than failureRateThreshold |
| BreakerAnswers.WindowIsReported | internal/cli/breaker/subbreaker.go:68-84 | In every timed run, while at most capacity buckets were pushed since creation or the last closing, the window shows exactly what was reported since then |
| BreakerAnswers.ClosedAnswerIff | internal/cli/breaker/subbreaker.go:93-103 | So, in every such run, a closed breaker refuses exactly if at least minRequestCount results were reported since creation or the last closing, with more than failureRateThreshold times their number network failures or timeouts |
| BreakerAnswers.OpenAnswerIff | internal/cli/breaker/subbreaker.go:104-112 | In every run an open breaker refuses exactly until openDuration has passed since the operation that opened it, and the first later call is admitted and makes it half-open |
| BreakerAnswers.HalfOpenAnswerIff | internal/cli/breaker/subbreaker.go:113-126 | In every run a half-open breaker admits exactly within halfOpenMaxDuration of its entry and while fewer than halfOpenAllowed were admitted since; after that time it opens for the full openDuration |
| BreakerAnswers.HalfOpenReportIff | internal/cli/breaker/subbreaker.go:147-159 | In every reachable half-open state a result opens exactly if it is a network failure or a timeout, closes exactly if it is the halfOpenAllowed-th success reported since the entry, and otherwise leaves entry time, deadline and probes as they were |
| BreakerAnswers.ReportWhenNotHalfOpen | internal/cli/breaker/subbreaker.go:130-147 | A result in a closed or open breaker is added to the current bucket of the window brought up to date, and changes nothing else |
| SubBreakerSpec.NewSettings | internal/cli/breaker/subbreaker.go:26-35 | Seconds become nanoseconds, one flag gives both the number of buckets and the span of one, and valid options yield settings on which every run theorem applies |
| SubBreakerSpec.SpansIsQuotient | internal/cli/breaker/subbreaker.go:78-78 | Counting spans one by one is integer division |
| SubBreakers.SubBreaker.Allowed | internal/cli/breaker/subbreaker.go:86-128 | The imperative allowed refines the machine the run theorems are about: same new state, same answer |
| SubBreakers.SubBreaker.Record | internal/cli/breaker/subbreaker.go:130-160 | The imperative record, with its bucket pointers, refines the machine |
| SubBreakers.SubBreaker.Advance | internal/cli/breaker/subbreaker.go:68-84 | The push loop and the flush have the effect of the machine's advance |
| SubBreakers.SubBreaker.Decide | internal/cli/breaker/subbreaker.go:89-127 | The switch with its fallthrough decides as the machine does |
| SubBreakers.SubBreaker.FailureRateExceeded | internal/cli/breaker/subbreaker.go:94-103 | The failure rate is compared on the sums over ring and current bucket, and only from minRequestCount on |
| SubBreakers.SubBreaker.Book | internal/cli/breaker/subbreaker.go:133-159 | Counting and judging a result, and clearing the window on closing |
| SubBreakers.SubBreaker.constructor | internal/cli/breaker/subbreaker.go:50-62 | A fresh breaker is closed with an empty window, ticking from its creation |
| Window.WindowHoldsFirstPushed | internal/cli/breaker/counter.go:40-58 | For every log of operations the ring holds exactly the first capacity buckets pushed since the last Reset, each as it was when pushed, and the current bucket is the one still open |
| Window.SummaryConservesResults | internal/cli/breaker/counter.go:40-106 | What was recorded since the last Reset is what Summary shows plus the contents of the buckets a full ring refused, kind by kind |
| Window.NothingRefusedIff | internal/cli/breaker/subbreaker.go:64-67 | The ring is everything pushed since the last Reset exactly if at most capacity buckets were, and beyond that agrees with an evicting window only if the first buckets equal the last |
| Window.OldBucketStays | internal/cli/breaker/subbreaker.go:64-67 | A log on which the ring keeps the old bucket and loses the new one |
| Counters.Counter.Summary | internal/cli/breaker/counter.go:60-78 | The loop over bucket pointers yields, field by field, the sum of the closed buckets and the current one |
| Counters.StatisticalUnit.TotalIsSum | internal/cli/breaker/counter.go:18-24 | Total, kept as a counter of its own, is always Success + BusinessFailure + NetworkFailure + Timeout |
| Counters.Counter.Flush | internal/cli/breaker/counter.go:47-52 | The current bucket moves into the ring, or is lost if the ring is full; recording afterwards cannot change it, because the current bucket is a new object |
| Counters.Counter.PushEmpty | internal/cli/breaker/counter.go:54-58 | An empty bucket is pushed if there is room; the current one stays |
| Counters.Counter.Reset | internal/cli/breaker/counter.go:40-45 | Ring and current bucket are emptied |
| Counters.Counter.RecordSuccess | internal/cli/breaker/counter.go:80-85 | One success is added to the current bucket only |
| Counters.Counter.RecordBusinessFailure | internal/cli/breaker/counter.go:87-92 | One business failure is added to the current bucket only |
| Counters.Counter.RecordNetworkFailure | internal/cli/breaker/counter.go:94-99 | One network failure is added to the current bucket only |
| Counters.Counter.RecordTimeout | internal/cli/breaker/counter.go:101-106 | One timeout is added to the current bucket only |
| SpareSlotRing.CircularQueue.Enqueue | pkg/datastruct/queue/circularqueue.go:34-42 | Refines the bounded FIFO: refused and unchanged when full, appended otherwise |
| SpareSlotRing.CircularQueue.Dequeue | pkg/datastruct/queue/circularqueue.go:44-52 | Refines the bounded FIFO: the oldest element, across wrap-around |
| SpareSlotRing.CircularQueue.List | pkg/datastruct/queue/circularqueue.go:54-61 | Exactly the contents of the FIFO, oldest first |
| SpareSlotRing.CircularQueue.Size | pkg/datastruct/queue/circularqueue.go:19-24 | The wrap-around difference of the indices is the number of elements |
| SpareSlotRing.CircularQueue.IsEmpty | pkg/datastruct/queue/circularqueue.go:26-28 | Equal indices mean there is no element |
| SpareSlotRing.CircularQueue.IsFull | pkg/datastruct/queue/circularqueue.go:30-32 | The slot test is true exactly when the number of elements is the capacity |
| SpareSlotRing.CircularQueue.Reset | pkg/datastruct/queue/circularqueue.go:63-66 | Resetting the indices empties the FIFO |
| SizedRing.CircularQueue.New | pkg/datastruct/queue/ai_implementation/circular_queue.go:25-34 | Fails exactly for capacities below 1 |
| SizedRing.CircularQueue.Enqueue | pkg/datastruct/queue/ai_implementation/circular_queue.go:37-50 | Refines the bounded FIFO |
| SizedRing.CircularQueue.Dequeue | pkg/datastruct/queue/ai_implementation/circular_queue.go:53-72 | Refines the bounded FIFO, including the index reset on becoming empty |
| SizedRing.CircularQueue.Peek | pkg/datastruct/queue/ai_implementation/circular_queue.go:75-85 | The oldest element, without removing it |
| SizedRing.CircularQueue.Clear | pkg/datastruct/queue/ai_implementation/circular_queue.go:116-128 | Empties the FIFO and leaves no old value in the buffer |
| RingEquivalence.Lockstep | pkg/datastruct/queue/ai_implementation/circular_queue.go:37-128 | For every capacity from 1 on and every sequence of operations both rings give the same successes and values as one bounded FIFO, and end with the same contents |
| BreakerSpec.PerKeyProjection | internal/cli/breaker/breaker.go:22-58 | In any interleaved run over many keys, from breakers in any state, the answers and the state for a key are those of one breaker, as given or created at its first operation, that is fed only its own operations |
| BreakerModule.Breaker.Allowed | internal/cli/breaker/breaker.go:22-31 | Refines the map of machines: one key is created or stepped, no other key's objects or state change |
| BreakerModule.Breaker.Record | internal/cli/breaker/breaker.go:49-58 | Refines the map of machines for reports |
| LoadBalancing.LoadBalance | internal/cli/proxy/http_transport.go:60-99 | The loop leaves the breakers as the machine of concurrent calls does with this one call, from breakers in any state, and ends where that call ends: with its response, or past the last endpoint. So the results about calls hold of the loop |
| LoadBalancing.Attempted | internal/cli/proxy/http_transport.go:68-96 | One attempt: a refused endpoint is only asked; an admitted one is asked and then reported once, under the kind of its outcome, a success included; without a breaker nothing is asked or reported. Success ends the call and anything else goes on to the next endpoint |
| LoadBalancing.WinnerIsFirst | internal/cli/proxy/http_transport.go:60-99 | The response is that of the first endpoint in list order that is admitted when its turn comes and answers, there is none only if no endpoint does, and every admission was reported |
| LoadBalancing.RecordFailure | internal/cli/proxy/http_transport.go:127-139 | A failure is booked under one kind by the text of its error: timeouts first, then refused connections and network errors, then all others |
| Outcomes.Contains | internal/cli/proxy/http_transport.go:129-132 | The scan is substring search: true exactly if the part occurs at some position |
| Outcomes.Kind | internal/cli/proxy/http_transport.go:127-139 | An error counts as a timeout exactly if its text holds one of the two timeout phrases somewhere, as a network failure exactly if it holds one of the two network phrases and neither of those, and as a business failure otherwise |
| Admission.AdmissionsAccountedFor | internal/cli/proxy/http_transport.go:60-99 | With any number of concurrent calls, at every step and for every endpoint: admitted = reported + in flight |
| Admission.FirstAdmittedSuccessWins | internal/cli/proxy/http_transport.go:68-96 | A concurrent call that returns gives the response of an endpoint that was admitted and answered, and every endpoint before it in its list was refused or failed |
| Admission.ExhaustedMeansAllPassed | internal/cli/proxy/http_transport.go:98-98 | A concurrent call gives up only after every endpoint refused or failed |
| Admission.AnswersAreTheBreakers | internal/cli/proxy/http_transport.go:70-92 | However the calls interleave, every answer on record for an endpoint, and the state of its breaker, are those of one breaker fed the requests for the endpoint and its reported outcomes |
| Probes.OnlyProbesCountIff | internal/cli/breaker/subbreaker.go:147-159 | After a half-open entry every success that is ever counted towards closing is that of a request admitted since, exactly if no request of before may still succeed |
| Probes.CountedIsProbeSuccess | internal/cli/breaker/subbreaker.go:147-159 | With any number of concurrent calls, from breakers in any state they can be in, probeSuccess of a half-open breaker is the number of requests whose success was reported since the entry, on top of what it had if it was entered before |
| Probes.ClosedByCounted | internal/cli/breaker/subbreaker.go:152-158 | A half-open breaker is closed by a reported success, the halfOpenAllowed-th since the entry |
| Probes.StaleSuccessCloses | internal/cli/breaker/subbreaker.go:136-158 | A request admitted before the breaker opened, answered after a probe was admitted, closes the breaker while the probe is still out |
| EventKeys.KeyRoundTrip | internal/ctrl/worker/event.go:27-41 | Parsing the key of an event gives it back exactly if neither type nor namespace holds a slash |
| EventKeys.ParseRoundTrip | internal/ctrl/worker/event.go:27-41 | Every accepted key is the key of what it parses to |
| EventKeys.RejectedIffTooFewSlashes | internal/ctrl/worker/event.go:31-35 | A key is rejected exactly if it has fewer than two slashes |
| EventKeys.KeysDistinguishEvents | internal/ctrl/worker/event.go:24-29 | The de-duplicating queue never merges two different well-formed events |
| GeneralCaches.GeneralCache.Add | pkg/cache/general_cache.go:10-20 | An existing entry is kept and returned |
| GeneralCaches.GeneralCache.Update | pkg/cache/general_cache.go:22-32 | Only existing entries change |
| GeneralCaches.GeneralCache.Delete | pkg/cache/general_cache.go:34-45 | Removes an existing entry and returns it |
| GeneralCaches.GeneralCache.Get | pkg/cache/general_cache.go:47-53 | The entry, if there is one |
| Containers.ContainersWithOneUpdated | internal/ctrl/worker/crd_worker.go:227-235 | The array is updated in place to the list with its first container of that name replaced |
| Containers.ContainersWithOneRemoved | internal/ctrl/worker/crd_worker.go:251-259 | The list without the containers of that name, in order |
| Containers.WithContainerUpdated | internal/ctrl/worker/crd_worker.go:237-249 | Init containers and containers are both rewritten, nothing else of the workload |
| Containers.WithContainerRemoved | internal/ctrl/worker/crd_worker.go:261-273 | Init containers and containers both lose the name, nothing else of the workload |
| Containers.ReplacedFirst | internal/ctrl/worker/crd_worker.go:227-235 | Position by position: only the first container of that name changes, to the new one |
| Containers.ReplacedMembers | internal/ctrl/worker/crd_worker.go:227-235 | With unique names, afterwards no container of that name differs from the new one and no other container is lost |
| Containers.WithoutMembers | internal/ctrl/worker/crd_worker.go:251-259 | Exactly the containers of other names remain |
| Containers.RewriteOverwrites | internal/ctrl/worker/crd_worker.go:227-273 | A rewrite of one name makes the same of a workload whether or not an earlier rewrite of that name went through, which is what makes retries safe |
| CrdWorkers.CRDWorker.Process | internal/ctrl/worker/crd_worker.go:79-98 | The whole attempt at a key: the cluster is what the failures that occur leave of one pass, and the key is dropped, forgotten or put back with a delay as retries allow |
| CrdWorkers.CRDWorker.Reconcile | internal/ctrl/worker/crd_worker.go:123-183 | Deployments before StatefulSets, a failed list ends the attempt, a failed update does not; an error is reported exactly if some call failed |
| CrdWorkers.CRDWorker.RewriteKind | internal/ctrl/worker/crd_worker.go:136-141 | The loop over the listed workloads has the effect of rewriting all of them at once, except those whose update is rejected |
| CrdWorkers.CRDWorker.ReconcileUpdate | internal/ctrl/worker/crd_worker.go:123-155 | Uses the cached container, and does nothing, without error, if it is gone |
| CrdWorkers.CRDWorker.DispatchEvent | internal/ctrl/worker/crd_worker.go:107-121 | Add and unknown types change nothing |
| CrdHandlers.CRDHandlers.OnAdded | internal/ctrl/worker/crd_handlers.go:24-38 | Keeps an existing cache entry and queues an Add key all the same |
| CrdHandlers.CRDHandlers.OnUpdated | internal/ctrl/worker/crd_handlers.go:40-56 | Changes and queues only what is cached |
| CrdHandlers.CRDHandlers.OnDeleted | internal/ctrl/worker/crd_handlers.go:58-74 | Removes and queues only what is cached |
| RetryConvergence.FirstSuccessConverges | internal/ctrl/worker/crd_worker.go:107-183 | After any attempts at one event, each with its own cache and failures, one without error leaves every labelled workload rewritten with the last value read, or, if it found the container gone, what the earlier attempts left; that is one undisturbed attempt from the original exactly if it set out to rewrite or no earlier rewrite that got through changed its workload |
| RetryConvergence.EachShowsItsLastRewrite | internal/ctrl/worker/crd_worker.go:123-183 | After any attempts, whatever failed, each labelled workload is the original with the last rewrite that was carried out on it, and shows no trace of the others |
| RetryConvergence.UnchangedIff | internal/ctrl/worker/crd_worker.go:123-183 | The attempts leave the cluster as it was exactly if for every labelled workload the last rewrite carried out leaves the original as it is |
| RetryConvergence.VanishedContainerStrandsWorkloads | internal/ctrl/worker/crd_worker.go:124-128 | An Update rejected for one of two workloads, whose container is gone at the retry, ends without error and leaves the two apart |
| RetryConvergence.OthersUntouched | internal/ctrl/worker/crd_worker.go:123-183 | No attempt, failed or not, touches a workload of another namespace or without the label |
| RetryConvergence.CleanAttempt | internal/ctrl/worker/crd_worker.go:107-154 | An attempt without error has rewritten every labelled workload of the namespace, or found nothing to do |
| RetryConvergence.ErrorIff | internal/ctrl/worker/crd_worker.go:117-183 | An attempt reports an error exactly if it sets out to rewrite something and a list fails, or the update of a labelled workload of the namespace is rejected or its reply lost |
| WorkQueues.QueueStaysValid | internal/ctrl/worker/crd_worker.go:69-98 | The assumed queue hands out each key at most once at a time: every operation keeps the ready list the duplicate-free list of dirty keys not in process |
| ControllerProof.RunKeepsInv | internal/ctrl/worker/crd_worker.go:79-183 | In every interleaving of callbacks, worker steps, failing calls, lost replies and others' writes: a labelled workload that disagrees with the cache about a name implies that its Update or Delete key is queued, delayed, about to be queued, or in hand and yet to reach it |
| ControllerProof.CoverageStep | internal/ctrl/worker/crd_worker.go:107-154 | No single step loses track of a disagreement |
| ControllerProof.DrainedHasConverged | internal/ctrl/worker/crd_handlers.go:24-74 | Whenever nothing is queued, delayed or in process, every labelled workload agrees with the cache about every name ever cached |
| ControllerProof.AddConvergesIffSafe | internal/ctrl/worker/crd_worker.go:107-111 | An Add event corrects no workload: every run in which a controller at rest is told of a container and left alone until it is at rest again ends in agreement about it exactly if the name was managed before or no labelled workload holds a different container of that name |
| ControllerProof.AddRunIsPossible | internal/ctrl/worker/crd_worker.go:79-111 | There is such a run, of five steps |
| ControllerProgress.ConvergesOnceUndisturbed | internal/ctrl/worker/crd_worker.go:69-183 | After any run, once callbacks, other writers and failures stop: the steps still taken are bounded, while the controller is not at rest there is a next one, and at rest every labelled workload agrees with the cache about every name ever cached |
| ControllerProgress.StepProgress | internal/ctrl/worker/crd_worker.go:79-183 | Every step without outside interference uses up a measure of the keys, retries and writes still to come |
| CacheDelivery.CallbacksAreHandlers | internal/ctrl/worker/crd_handlers.go:24-74 | A callback step of the machine and the queueing after it change cache and queue as the handlers OnAdded, OnUpdated and OnDeleted do |
| CacheDelivery.CacheIsDelivered | internal/ctrl/worker/crd_handlers.go:24-74 | In every state of every run the cache holds, for every name, the container delivered last: the first one added, then the updates, until it is deleted |
| CacheDelivery.UpdateIsKept | internal/ctrl/worker/crd_handlers.go:40-56 | An update of a cached container is what the cache holds until the next update or deletion of the name |
| CacheDelivery.AdditionIsKept | internal/ctrl/worker/crd_handlers.go:24-38 | An addition counts exactly if the name was not cached, and stays until the next update or deletion |
| CacheDelivery.DeletionIsKept | internal/ctrl/worker/crd_handlers.go:58-74 | A deleted name is not cached until it is added again |
| CacheDelivery.RestShowsDelivered | internal/ctrl/worker/crd_handlers.go:24-74 | Whenever nothing is queued, delayed or in process, every labelled workload holds, under every name that was ever added, the container delivered last, and none if it was deleted since |
| CacheDelivery.UpdateReachesWorkloads | internal/ctrl/worker/crd_handlers.go:40-56 | An update of a cached container is what every labelled workload holds under its name whenever the controller is at rest, until the next update or deletion |
| CacheDelivery.ConvergesToDelivered | internal/ctrl/worker/crd_worker.go:69-183 | After any run, once callbacks, other writers and failures stop, the bounded number of steps left ends with every labelled workload showing the container delivered last |
| UndisturbedWorker.UndisturbedRunIsOneProcess | internal/ctrl/worker/crd_worker.go:79-183 | The fine-grained steps taken without interruption, in any order of the listed workloads, have the effect on cluster and queue that the method Process is proved to have |
| BoundedDrain.RequeuesBounded | internal/ctrl/worker/crd_worker.go:100-105 | With maxRetries >= 0 no key's retry counter ever exceeds it, with callbacks, cache changes and ends of delays at any time |
| BoundedDrain.CanFailIff | internal/ctrl/worker/crd_worker.go:79-128 | The keys the machine lets fail are exactly those for which some API failures make processing an error: Delete keys, and Update keys of cached containers |
| BoundedDrain.DrainsWithinTotal | internal/ctrl/worker/crd_worker.go:69-105 | Once callbacks stop, whichever calls fail and whenever delays end, also during a process call, the process calls never exceed the weights of the keys, and nothing is pending when that many were made |
| BoundedDrain.BoundIsReached | internal/ctrl/worker/crd_worker.go:69-105 | The bound is exact: from every state, also in the middle of a process call, some run takes that many, in which only keys fail that can |
| BoundedDrain.DrainsWithinTriesLeftIff | internal/ctrl/worker/crd_worker.go:79-105 | In every state the sum of the tries left (maxRetries + 1 - NumRequeues, less the call under way, for keys that can fail; one for every copy of the others) bounds every run exactly if no key that can fail is at two places: queued, waiting, or in a call that can still fail |
| BoundedDrain.DrainsWithinRetriesLeft | internal/ctrl/worker/crd_worker.go:79-105 | Between process calls, with no key both queued and waiting, the queue drains within the sum over the pending keys of maxRetries + 1 - NumRequeues |
| BoundedDrain.DoublyPendingIsReachable | internal/ctrl/worker/crd_worker.go:89-98 | For every key that can fail, a failure followed by a callback leads to a state in which it is both queued and waiting |
| BoundedDrain.PendingMakesProgress | internal/ctrl/worker/crd_worker.go:69-77 | While a key is pending the next process call is at most four moves away, none of them a callback or a failure |
| EndpointIndex.EndpointSliceCache.OnAdded | internal/resources/endpointslice_cache.go:71-82 | The two-level map of objects refines the index as a value; anything but a slice is ignored |
| EndpointIndex.EndpointSliceCache.OnUpdate | internal/resources/endpointslice_cache.go:84-97 | An update whose label changed leaves both services' slices as they are, but still reports a change of the old service |
| EndpointIndex.EndpointSliceCache.OnDelete | internal/resources/endpointslice_cache.go:99-113 | Reports deleteAll never: the deletion of a service's last slice removes the entry and dereferences nil |
| EndpointIndex.EndpointSliceCache.GetCache | internal/resources/endpointslice_cache.go:115-121 | The slices of the service merged in some iteration order, or nothing |
| EndpointIndex.ServiceEntry.GetMerged | internal/resources/endpointslice_cache.go:26-37 | The append loop over the map yields the endpoints of every slice once, in the order of the iteration |
| IndexAgreement.IndexAgreesWithFlatMap | internal/resources/endpointslice_cache.go:71-113 | After any run of adds, label-preserving updates and non-final deletes the index is the flat map from (service, name) to latest slice grouped by service, no service is empty and nil was never dereferenced |
| IndexAgreement.UpdateAgreesIff | internal/resources/endpointslice_cache.go:53-62 | An update keeps the index in step with the flat map and without empty entries exactly if it keeps the label, or changes nothing in the flat map and its old service is known |
| IndexAgreement.RelabelLeavesTrap | internal/resources/endpointslice_cache.go:91-95 | An update away from an unknown service leaves an empty entry; whatever happens to other services in between, the next operation about that service dereferences nil if it is a deletion |
| IndexAgreement.DeleteFailsIffLast | internal/resources/endpointslice_cache.go:104-112 | A deletion dereferences nil exactly if the index has an entry for its service and no slice of it but possibly this one, empty entries included |
| EndpointMaps.NewClientSubscriptionEvent | internal/ctrl/utils/sidecar.go:76-88 | The loop builds the map by uid in which the last endpoint with a uid counts, and panics exactly if some endpoint has no target reference |
| EndpointMaps.ByUidIsLast | internal/ctrl/utils/sidecar.go:76-88 | Every uid that occurs, and no other, with the addresses of its last occurrence |
| EndpointMaps.OrderIndependentIff | internal/ctrl/utils/sidecar.go:76-88 | The published map is the same for every iteration order of GetMerged exactly if no two slices of the service give one uid different addresses |
| EndpointMaps.DistinctUidsPublishAll | internal/resources/endpointslice_cache.go:26-37 | With distinct uids every order publishes each endpoint of each slice with its addresses, and nothing else |
| Sidecars.Sidecar.Informer | internal/ctrl/utils/sidecar.go:31-59 | Only slices of the subscribed service get through, never onto a closed channel; a full channel loses the event, and an event that cannot be built panics before the channel is touched |
| Sidecars.Sidecar.Close | internal/ctrl/utils/sidecar.go:66-74 | Closes the channel at most once and keeps what is buffered |
| GrpcServers.GrpcServer.GetSidecar | internal/ctrl/grpcserver/server.go:31-40 | One subscriber of the service, and null only if there is none |
| GrpcServers.GrpcServer.Prepare | internal/ctrl/grpcserver/server.go:43-56 | Refused without trace when not ready; otherwise a fresh sidecar, not yet registered, that holds the initial list |
| GrpcServers.GrpcServer.Register | internal/ctrl/grpcserver/server.go:58-68 | The second check: registered under its id, whoever held it, exactly if the server is still ready |
| GrpcServers.GrpcServer.Unregister | internal/ctrl/grpcserver/server.go:74-79 | The id is removed, whoever is registered under it |
| GrpcServers.GrpcServer.Shutdown | internal/ctrl/grpcserver/server.go:107-119 | Every registered channel is closed with its buffer intact, and the server is not ready any more |
| GrpcServers.GrpcServer.Publish | internal/ctrl/grpcserver/distributer.go:8-13 | At most one sidecar is told; all others keep their channels |
| EndpointReconcilers.EndpointSliceReconciler.OnAdded | internal/ctrl/reconciler/endpointslice_reconciler.go:19-25 | After the index has changed, the whole merged service is offered to one subscriber as ADDED |
| EndpointReconcilers.EndpointSliceReconciler.OnUpdated | internal/ctrl/reconciler/endpointslice_reconciler.go:27-33 | After the index has changed, the whole merged service is offered to one subscriber as MODIFIED |
| EndpointReconcilers.EndpointSliceReconciler.PublishMerged | internal/ctrl/reconciler/endpointslice_reconciler.go:21-23 | What is published is the index's view of the service merged in some order; all mailboxes but one are untouched |
| EndpointReconcilers.EndpointSliceReconciler.OnDeleted | internal/ctrl/reconciler/endpointslice_reconciler.go:35-48 | Dereferences nil exactly on the last slice of a service, and therefore never publishes DELETED; otherwise the remaining slices are offered as MODIFIED, or the event cannot be built |
| EndpointReconcilers.EndpointSliceReconciler.PublishDeletion | internal/ctrl/reconciler/endpointslice_reconciler.go:37-47 | Whatever the cache reported: DELETED if the service is said to be gone, which reaches nobody when there is nothing to send, MODIFIED if it is still there, and nothing otherwise |
| Handshake.ChannelsStaySound | internal/ctrl/utils/sidecar.go:31-74 | In every interleaving: no send on a closed channel, no second close, at most 100 events buffered, and every handler passes on an in-order subsequence of what it was offered |
| Handshake.ShutdownIsFinal | internal/ctrl/grpcserver/server.go:58-89 | With distinct live ids and readiness set before shutdown: once its critical section has ended, no sidecar is ever registered again and every handler still serving served before and has a closed channel |
| Handshake.OrderlyRunsKeepInv | internal/ctrl/grpcserver/server.go:105-119 | In such runs the registrations are those of the serving handlers, and from the moment shutdown begins each of them is closed or still to be closed |
| Handshake.NobodyBeginsToServeIff | internal/ctrl/grpcserver/server.go:105-125 | After the shutdown no handler can ever begin to serve exactly if the server had been marked ready before and is ready no more, or if it has been stopped with no subscription under way; until then marking it lets one in whose channel nobody closes |
| Handshake.ServedOnlyWhileReady | internal/ctrl/grpcserver/server.go:44-68 | In every run every handler was created by a subscription taken while the server was ready, one that serves was registered while it was ready, and no channel is closed before the shutdown begins |
| Handshake.RegisterKeepsTrackedIff | internal/ctrl/grpcserver/server.go:66-66 | A registration keeps every serving handler registered exactly if its id is not in use |
| Handshake.ReusedIdOrphans | internal/ctrl/grpcserver/server.go:66-74 | A handler whose id was taken over keeps an open channel in every continuation, shutdown included |
| Handshake.UnregisterKeepsTrackedIff | internal/ctrl/grpcserver/server.go:74-79 | A handler that leaves keeps the registrations in order exactly if no other handler holds its id |
| Handshake.LateExitOrphansSuccessor | internal/ctrl/grpcserver/server.go:74-79 | Otherwise its successor is left without anybody to close its channel, in every continuation |
| Handshake.OrphanIsNeverClosed | internal/ctrl/grpcserver/server.go:107-117 | No run closes the channel of a handler without a registration |
| Handshake.ClosedHandlerEnds | internal/ctrl/grpcserver/server.go:80-89 | After shutdown a handler can pass on all it has buffered, leave and unregister |
| Handshake.ClosedOnlyEmpties | internal/ctrl/utils/sidecar.go:49-52 | Offers to a closed sidecar leave no trace in its channel |
| Deliveries.EveryOfferAccountedFor | internal/ctrl/utils/sidecar.go:31-59 | In every interleaving every event offered to a handler was passed on, is buffered, met a closed or full channel, or is the one whose sending failed; all were passed on in order exactly if none met that fate |
| Deliveries.LeavesWithNothingBuffered | internal/ctrl/grpcserver/server.go:80-89 | A handler that leaves without a failed send has passed on all its channel took, and its channel is closed |
| Deliveries.OnlyItsService | internal/ctrl/grpcserver/server.go:31-40 | An event is only ever offered to a handler of the service that was looked up for it |
| ClientCaches.MeshClient.Receive | internal/cli/rpcclient/client.go:67-86 | The receive loop folds the events of the stream into the cache |
| ClientCaches.LastEventCounts | internal/cli/rpcclient/client.go:74-84 | After any events the service shows the last one, or nothing after DELETED, and no other service has changed |
| ClientCaches.ServiceCache.OnUpdate | internal/cli/rpcclient/cache.go:51-58 | The last of the given endpoint sets replaces the entry; none given changes nothing |
| ClientCaches.ServiceCache.GetServiceIps | internal/cli/rpcclient/cache.go:80-88 | A copy of the service's endpoint map, empty if it is unknown |
| ClientCaches.GetIps | internal/cli/rpcclient/cache.go:15-21 | The copying loop yields the same map |
| MonotoneView.ClientShowsASnapshot | internal/cli/rpcclient/client.go:65-86 | Whatever is dropped and however often it subscribes, the client shows nothing or the merged slices of the service as they were after some past event |
| MonotoneView.ClientShowsEveryEndpoint | internal/ctrl/utils/sidecar.go:76-88 | With distinct uids that is the one map every merge order yields |
| MonotoneView.ViewIsMonotone | internal/ctrl/reconciler/endpointslice_reconciler.go:19-46 | The event the client's view dates from never moves back |
| MonotoneView.PublishedIsBuilt | internal/ctrl/reconciler/endpointslice_reconciler.go:19-46 | What the machine publishes is the event the reconciler's callbacks build of the merged service, and it can be built |
| ClientArrival.UpToDateIff | internal/ctrl/utils/sidecar.go:48-58 | In every run, once everything is delivered, the client shows the service as the index held it when the last list, or the last offer that found room, was taken; that is the latest state exactly if no event about the service has come since |
| ClientArrival.UpToDateUnlessDropped | internal/ctrl/grpcserver/server.go:53-67 | If the client keeps its id to one handler at a time, then, registered, with the reconciler idle and everything delivered, it shows the service as the index holds it exactly if its last offer since the registration found room in its channel, or, without any, no event came between its list and its registration; otherwise it shows an older state, that of the last list or accepted offer |
| ClientArrival.DeliveryCanFinish | internal/ctrl/grpcserver/server.go:80-89 | From any state in which a client is registered, sending and receiving alone delivers everything |
| MonotoneView.TakenOverFallsBehindIff | internal/ctrl/grpcserver/server.go:66-79 | A client whose id has been taken over or removed, and whose stream stays up, is current once everything is delivered exactly if it was going to be current at that moment and no event about the service has come since |
| MonotoneView.TakeoverSilencesIff | internal/ctrl/grpcserver/server.go:66-79 | That happens to every registered client, with no event being offered to it, when another handler of its id registers late or unregisters |
| MonotoneView.SecondServiceSilencesFirst | internal/ctrl/grpcserver/server.go:66-66 | A client that subscribes to a second service under its id never hears of the first slice of the first one, although nothing is dropped |
| MonotoneView.RunsKeepInv | internal/ctrl/grpcserver/server.go:53-67 | The invariant behind these: numbers never decrease along buffer, stream and client, all that is on its way shows some past state, and a client that is going to show the latest has room for what is being published |
| MonotoneView.OfferingIsInformer | internal/ctrl/utils/sidecar.go:53-58 | The machine's bounded channel is the sidecar's |

## Left out

- Sockets, HTTP servers, TLS, original-destination lookup, TCP copying, request building and host parsing: input and output.
- The errors a request can meet: an outcome is a response or any error text.
- Reading the request body before the failover loop, and looking endpoints up for it: the list of endpoints is a parameter.
- Floating-point rounding of the failure rate, overflow of 64-bit durations and wall-clock jumps: reals and integers with a forward-moving clock.
- The mutexes inside `counter`, `subBreaker`, the sized ring and the caches: their callers' critical sections are the atomic steps.
- client-go informers, the API server and exponential backoff: only the interface the worker relies on.
- The worker's start and stop, and more than one worker: the default starts one.
- Bounded retries in `Controller`: a key that is dropped after its last retry leaves its workloads as they are, so convergence is proved for the default of unlimited retries.
- Workloads that already differ when a container is first added: no event corrects them, which AddConvergesIffSafe states exactly.
- Containers of several namespaces with one name: the cache is keyed by name only, so the model keeps to one namespace.
- Aliasing between the cached container and the workloads it is written into: containers are values.
- Data races on the endpoint cache between the informer and the initial list: each access is one step of the machine.
- `listFn`, which `NewGrpcServer` never sets: the initial list is a parameter of `Subscribe`.
- Several sidecars of one service: `Publish` reaches one of them, so `MonotoneView` follows a sole subscriber.
- `MeshClient.Unsubscribe`, which forgets the service (its caller cancels the stream first), and the shutdown of the server, in `MonotoneView`.
- In `MonotoneView`, deleting the last slice of a service and publishing an endpoint without a target reference: the server panics there, as the classes say.
- Scheduling fairness: progress is a bound on the steps and the possibility of the next one.
- The admission webhook, `ServiceContext` and `ContainersCache`: single decisions and map wrappers that would add only easy members.
- internal/ctrl/reconciler/container_*.go: an older copy of the worker's helpers that start-up does not use.
- Metrics, health checks, command-line options, generated protobuf code and deployment files: glue.
- The window with eviction, key eviction and rolling summary that the documents plan: not implemented.
