/** Subscriptions, publishing and shutdown of internal/ctrl/grpcserver/server.go in any interleaving. An action
    is what runs without interruption: a critical section, or one access to the ready flag or a channel. */
module Handshake {
  import opened EndpointMaps
  import opened Sidecars

  /** How far a subscription handler has come. Live handlers are in their receive loop; exiting ones have
      left it and still have to remove their registration. */
  datatype Stage = Created | Listed | Live | Exiting | Ended

  /** A handler with its sidecar: the closed flag, the channel, everything ever offered to it and everything
      it has passed on. `panicked` records a send on a closed channel or a second close. */
  datatype Handler = Handler(
    id: string,
    service: string,
    stage: Stage,
    flag: bool,
    box: Mailbox,
    panicked: bool,
    offered: seq<ClientEvent>,
    received: seq<ClientEvent>)
  {
    /** In the receive loop or on the way out: the time during which it ought to be registered. */
    predicate Serving() {
      stage.Live? || stage.Exiting?
    }
  }

  /** While it closes the channels, the shutdown goroutine holds the server's mutex. Then it stops the gRPC
      server, which takes no more calls and waits for those under way. */
  datatype Shutdown = Running | Closing(todo: set<nat>) | Finished

  datatype World = World(
    marked: bool,
    ready: bool,
    sidecars: map<string, nat>,
    handlers: map<nat, Handler>,
    publishers: map<nat, nat>,
    shutdown: Shutdown,
    stopped: bool)

  const START := World(false, false, map[], map[], map[], Running, false)

  datatype Action =
    | MarkReady
    | ServeReturns
    | Subscribe(h: nat, id: string, service: string)
    | ListInitial(h: nat, listed: seq<ClientEvent>)
    | Register(h: nat)
    | Lookup(p: nat, service: string, h: nat)
    | Deliver(p: nat, e: ClientEvent)
    | Receive(h: nat)
    | FailSend(h: nat)
    | ChannelEnd(h: nat)
    | Unregister(h: nat)
    | ShutdownBegin
    | CloseNext(h: nat)
    | ShutdownEnd
    | GracefulStop

  predicate LockFree(w: World) {
    !w.shutdown.Closing?
  }

  predicate At(w: World, h: nat, stage: Stage) {
    h in w.handlers && w.handlers[h].stage == stage
  }

  predicate Enabled(w: World, a: Action) {
    match a
    case MarkReady => !w.marked
    case ServeReturns => w.marked
    case Subscribe(h, _, _) => h !in w.handlers && !w.stopped
    case ListInitial(h, listed) => At(w, h, Created) && |listed| <= 1
    case Register(h) => LockFree(w) && At(w, h, Listed)
    case Lookup(p, service, h) =>
      LockFree(w) && p !in w.publishers && h in w.sidecars.Values && h in w.handlers && w.handlers[h].service == service
    case Deliver(p, _) => p in w.publishers && w.publishers[p] in w.handlers
    case Receive(h) => At(w, h, Live) && w.handlers[h].box.buffer != []
    case FailSend(h) => At(w, h, Live) && w.handlers[h].box.buffer != []
    case ChannelEnd(h) => At(w, h, Live) && w.handlers[h].box == Mailbox([], true)
    case Unregister(h) => LockFree(w) && At(w, h, Exiting)
    case ShutdownBegin => w.shutdown.Running?
    case CloseNext(h) => w.shutdown.Closing? && h in w.shutdown.todo && h in w.handlers
    case ShutdownEnd => w.shutdown == Closing({})
    case GracefulStop => w.shutdown.Finished?
  }

  /** Informer, statement by statement. */
  function Informed(h: Handler, e: ClientEvent): Handler {
    var g := h.(offered := h.offered + [e]);
    if h.flag then g
    else if h.box.closed then g.(panicked := true)
    else if |h.box.buffer| < CHANNEL_CAPACITY then g.(box := h.box.(buffer := h.box.buffer + [e]))
    else g
  }

  /** Close, statement by statement. */
  function ClosedUp(h: Handler): Handler {
    if h.flag then h
    else if h.box.closed then h.(flag := true, panicked := true)
    else h.(flag := true, box := Shut(h.box))
  }

  /** What an action makes of the handler it is about. */
  function HandlerAct(h: Handler, ready: bool, a: Action): Handler {
    match a
    case ListInitial(_, listed) => (if listed == [] then h else Informed(h, listed[0])).(stage := Listed)
    case Register(_) => h.(stage := if ready then Live else Ended)
    case Deliver(_, e) => Informed(h, e)
    case Receive(_) =>
      if h.box.buffer == [] then h
      else h.(received := h.received + [h.box.buffer[0]], box := h.box.(buffer := h.box.buffer[1..]))
    case FailSend(_) =>
      if h.box.buffer == [] then h else h.(stage := Exiting, box := h.box.(buffer := h.box.buffer[1..]))
    case ChannelEnd(_) => h.(stage := Exiting)
    case Unregister(_) => h.(stage := Ended)
    case CloseNext(_) => ClosedUp(h)
    case _ => h
  }

  /** The handler an action changes, if any. */
  predicate Changes(w: World, a: Action, h: nat) {
    match a
    case ListInitial(g, _) => g == h
    case Register(g) => g == h
    case Deliver(p, _) => p in w.publishers && w.publishers[p] == h
    case Receive(g) => g == h
    case FailSend(g) => g == h
    case ChannelEnd(g) => g == h
    case Unregister(g) => g == h
    case CloseNext(g) => g == h
    case _ => false
  }

  function Handlers(w: World, a: Action): map<nat, Handler> {
    if a.Subscribe? && w.ready then
      w.handlers[a.h := Handler(a.id, a.service, Created, false, Mailbox([], false), false, [], [])]
    else
      map h | h in w.handlers :: if Changes(w, a, h) then HandlerAct(w.handlers[h], w.ready, a) else w.handlers[h]
  }

  function SidecarsAfter(w: World, a: Action): map<string, nat>
    requires Enabled(w, a)
  {
    match a
    case Register(h) => if w.ready then w.sidecars[w.handlers[h].id := h] else w.sidecars
    case Unregister(h) => w.sidecars - {w.handlers[h].id}
    case _ => w.sidecars
  }

  function ShutdownAfter(w: World, a: Action): Shutdown
    requires Enabled(w, a)
  {
    match a
    case ShutdownBegin => Closing(w.sidecars.Values)
    case CloseNext(h) => Closing(w.shutdown.todo - {h})
    case ShutdownEnd => Finished
    case _ => w.shutdown
  }

  function Act(w: World, a: Action): World
    requires Enabled(w, a)
  {
    World(
      w.marked || a.MarkReady?,
      if a.MarkReady? then true else if a.ShutdownBegin? || a.ServeReturns? then false else w.ready,
      SidecarsAfter(w, a),
      Handlers(w, a),
      if a.Lookup? then w.publishers[a.p := a.h] else if a.Deliver? then w.publishers - {a.p} else w.publishers,
      ShutdownAfter(w, a),
      w.stopped || a.GracefulStop?)
  }

  /** The state a schedule leads to; an action that is not enabled when its turn comes does nothing. */
  function RunFrom(w: World, actions: seq<Action>): World {
    if actions == [] then w
    else
      var v := RunFrom(w, actions[..|actions| - 1]);
      if Enabled(v, actions[|actions| - 1]) then Act(v, actions[|actions| - 1]) else v
  }

  function Run(actions: seq<Action>): World {
    RunFrom(START, actions)
  }

  // --- Channels ---

  ghost predicate Subsequence<T(!new)>(a: seq<T>, b: seq<T>) {
    a == [] || (b != [] && ((a[|a| - 1] == b[|b| - 1] && Subsequence(a[..|a| - 1], b[..|b| - 1]))
                            || Subsequence(a, b[..|b| - 1])))
  }

  lemma SubsequenceGrows<T(!new)>(a: seq<T>, b: seq<T>, x: T)
    requires Subsequence(a, b)
    ensures Subsequence(a, b + [x]) && Subsequence(a + [x], b + [x])
  {}

  /** Leaving out one element. */
  lemma {:induction false} SubsequenceShrinks<T(!new)>(a: seq<T>, x: T, c: seq<T>, b: seq<T>)
    requires Subsequence(a + [x] + c, b)
    ensures Subsequence(a + c, b)
    decreases |b|
  {
    var s, t := a + [x] + c, a + c;
    if b != [] {
      var init := b[..|b| - 1];
      if c == [] {
        assert s[..|s| - 1] == a && t == a;
        if Subsequence(s, init) {
          SubsequenceShrinks(a, x, c, init);
        } else {
          assert init + [b[|b| - 1]] == b;
          SubsequenceGrows(a, init, b[|b| - 1]);
        }
      } else {
        assert s[..|s| - 1] == a + [x] + c[..|c| - 1];
        assert t[..|t| - 1] == a + c[..|c| - 1];
        if Subsequence(s, init) {
          SubsequenceShrinks(a, x, c, init);
        } else {
          SubsequenceShrinks(a, x, c[..|c| - 1], init);
        }
      }
    }
  }

  /** Flag and channel agree, nothing has panicked, the buffer is within its bound, and what was passed on
      and what is buffered come, in this order, from what was offered. */
  ghost predicate Sound(h: Handler) {
    && h.flag == h.box.closed && !h.panicked
    && |h.box.buffer| <= CHANNEL_CAPACITY
    && Subsequence(h.received + h.box.buffer, h.offered)
  }

  lemma InformedSound(h: Handler, e: ClientEvent)
    requires Sound(h)
    ensures Sound(Informed(h, e)) && Informed(h, e).box == Offered(h.box, e)
  {
    SubsequenceGrows(h.received + h.box.buffer, h.offered, e);
    assert h.received + (h.box.buffer + [e]) == h.received + h.box.buffer + [e];
  }

  lemma HandlerStaysSound(h: Handler, ready: bool, a: Action)
    requires Sound(h)
    ensures Sound(HandlerAct(h, ready, a))
  {
    match a
    case ListInitial(_, listed) =>
      if listed != [] {
        InformedSound(h, listed[0]);
      }
    case Deliver(_, e) => InformedSound(h, e);
    case Receive(_) =>
      if h.box.buffer != [] {
        assert h.received + [h.box.buffer[0]] + h.box.buffer[1..] == h.received + h.box.buffer;
      }
    case FailSend(_) =>
      if h.box.buffer != [] {
        assert h.received + [h.box.buffer[0]] + h.box.buffer[1..] == h.received + h.box.buffer;
        SubsequenceShrinks(h.received, h.box.buffer[0], h.box.buffer[1..], h.offered);
      }
    case _ =>
  }

  /** In every run, whatever the ids and the moment of the shutdown: no send on a closed channel, no second
      close, at most CHANNEL_CAPACITY events buffered, and every handler passes on, in order, a part of what
      it was offered. */
  lemma {:induction false} ChannelsStaySound(actions: seq<Action>, h: nat)
    requires h in Run(actions).handlers
    ensures var x := Run(actions).handlers[h];
            && !x.panicked && x.flag == x.box.closed && |x.box.buffer| <= CHANNEL_CAPACITY
            && Subsequence(x.received + x.box.buffer, x.offered)
  {
    hide Enabled, HandlerAct;
    if actions != [] {
      var init, a := actions[..|actions| - 1], actions[|actions| - 1];
      var v := Run(init);
      if h in v.handlers {
        ChannelsStaySound(init, h);
        HandlerStaysSound(v.handlers[h], v.ready, a);
      }
    }
  }

  // --- Registrations ---

  /** The registrations are exactly those of the serving handlers, each under its own id. */
  ghost predicate Tracked(w: World) {
    && (forall x :: x in w.sidecars ==>
          var h := w.sidecars[x];
          h in w.handlers && w.handlers[h].id == x && w.handlers[h].Serving())
    && (forall h :: h in w.handlers && w.handlers[h].Serving() ==>
          w.handlers[h].id in w.sidecars && w.sidecars[w.handlers[h].id] == h)
  }

  /** What an orderly run keeps to: the server is marked ready before its shutdown begins, and no handler
      registers under an id that is still registered. */
  predicate Orderly(w: World, a: Action) {
    match a
    case MarkReady => w.shutdown.Running?
    case Register(h) => h in w.handlers ==> w.handlers[h].id !in w.sidecars
    case _ => true
  }

  predicate OrderlyRun(w: World, actions: seq<Action>) {
    actions == [] ||
    (var init, a := actions[..|actions| - 1], actions[|actions| - 1];
     OrderlyRun(w, init) && (Enabled(RunFrom(w, init), a) ==> Orderly(RunFrom(w, init), a)))
  }

  /** How a single handler fares in an action. */
  lemma HandlerStep(w: World, a: Action, h: nat)
    requires Enabled(w, a) && h in w.handlers
    ensures h in Act(w, a).handlers
    ensures var x, y := w.handlers[h], Act(w, a).handlers[h];
            && y.id == x.id && (x.box.closed ==> y.box.closed)
            && (y.Serving() <==> (x.Serving() && a != Unregister(h)) || (a == Register(h) && w.ready))
            && (a == CloseNext(h) && x.flag == x.box.closed ==> y.box.closed)
            && (a != CloseNext(h) ==> y.box.closed == x.box.closed)
  {}

  lemma NewHandler(w: World, a: Action, h: nat)
    requires Enabled(w, a) && h in Act(w, a).handlers && h !in w.handlers
    ensures !Act(w, a).handlers[h].Serving()
  {}

  /** All handlers are still there, under the same ids, and only h may have begun or stopped serving. */
  ghost predicate SameButFor(w: World, v: World, h: nat) {
    forall g :: (g in w.handlers ==> g in v.handlers && v.handlers[g].id == w.handlers[g].id)
             && (g in v.handlers && g !in w.handlers ==> !v.handlers[g].Serving())
             && (g in w.handlers && g in v.handlers && g != h ==> v.handlers[g].Serving() == w.handlers[g].Serving())
  }

  lemma AllSameButFor(w: World, a: Action, h: nat)
    requires Enabled(w, a)
    requires a.Register? || a.Unregister? ==> h == a.h
    ensures SameButFor(w, Act(w, a), h)
    ensures !a.Register? && !a.Unregister? && h in w.handlers ==>
              Act(w, a).handlers[h].Serving() == w.handlers[h].Serving()
  {
    hide Act, Enabled;
    forall g
      ensures g in w.handlers ==> g in Act(w, a).handlers && Act(w, a).handlers[g].id == w.handlers[g].id
      ensures g in Act(w, a).handlers && g !in w.handlers ==> !Act(w, a).handlers[g].Serving()
      ensures g in w.handlers && g in Act(w, a).handlers && (g != h || (!a.Register? && !a.Unregister?)) ==>
                Act(w, a).handlers[g].Serving() == w.handlers[g].Serving()
    {
      if g in w.handlers {
        HandlerStep(w, a, g);
      } else if g in Act(w, a).handlers {
        NewHandler(w, a, g);
      }
    }
  }

  lemma TrackedAdd(w: World, v: World, h: nat)
    requires Tracked(w) && SameButFor(w, v, h) && h in w.handlers && !w.handlers[h].Serving()
    requires h in v.handlers && v.handlers[h].Serving() && v.sidecars == w.sidecars[w.handlers[h].id := h]
    ensures Tracked(v) <==> w.handlers[h].id !in w.sidecars
  {}

  lemma TrackedRemove(w: World, v: World, h: nat)
    requires Tracked(w) && SameButFor(w, v, h) && h in w.handlers && w.handlers[h].Serving()
    requires h in v.handlers && !v.handlers[h].Serving() && v.sidecars == w.sidecars - {w.handlers[h].id}
    ensures Tracked(v)
  {}

  lemma TrackedKeep(w: World, v: World, h: nat)
    requires Tracked(w) && SameButFor(w, v, h) && v.sidecars == w.sidecars
    requires h in w.handlers && h in v.handlers ==> v.handlers[h].Serving() == w.handlers[h].Serving()
    ensures Tracked(v)
  {}

  /** Registering keeps the registrations in order exactly when the id is not taken. */
  lemma RegisterKeepsTrackedIff(w: World, h: nat)
    requires Tracked(w) && Enabled(w, Register(h)) && w.ready
    ensures Tracked(Act(w, Register(h))) <==> w.handlers[h].id !in w.sidecars
  {
    hide Tracked;
    AllSameButFor(w, Register(h), h);
    TrackedAdd(w, Act(w, Register(h)), h);
  }

  lemma TrackedStep(w: World, a: Action)
    requires Tracked(w) && Enabled(w, a) && Orderly(w, a)
    ensures Tracked(Act(w, a))
  {
    hide Tracked, Handlers, SameButFor;
    match a
    case Register(h) =>
      AllSameButFor(w, a, h);
      if w.ready {
        RegisterKeepsTrackedIff(w, h);
      } else {
        HandlerStep(w, a, h);
        TrackedKeep(w, Act(w, a), h);
      }
    case Unregister(h) =>
      AllSameButFor(w, a, h);
      HandlerStep(w, a, h);
      TrackedRemove(w, Act(w, a), h);
    case _ =>
      AllSameButFor(w, a, 0);
      TrackedKeep(w, Act(w, a), 0);
  }

  // --- Shutdown ---

  /** While the channels are being closed, every serving handler is closed or still to be closed; afterwards
      all are closed. */
  ghost predicate Guarded(w: World) {
    match w.shutdown
    case Running => true
    case Closing(todo) => !w.ready && forall h :: h in w.handlers && w.handlers[h].Serving() ==>
                            h in todo || w.handlers[h].box.closed
    case Finished => !w.ready && forall h :: h in w.handlers && w.handlers[h].Serving() ==> w.handlers[h].box.closed
  }

  ghost predicate FlagsAgree(w: World) {
    forall h :: h in w.handlers ==> w.handlers[h].flag == w.handlers[h].box.closed
  }

  lemma GuardedStep(w: World, a: Action)
    requires Tracked(w) && Guarded(w) && FlagsAgree(w) && Enabled(w, a) && Orderly(w, a)
    ensures Guarded(Act(w, a))
  {
    hide Handlers;
    var v := Act(w, a);
    if !v.shutdown.Running? {
      forall h | h in v.handlers && v.handlers[h].Serving()
        ensures v.handlers[h].box.closed || (v.shutdown.Closing? && h in v.shutdown.todo)
      {
        if h in w.handlers {
          HandlerStep(w, a, h);
        } else {
          NewHandler(w, a, h);
        }
      }
    }
  }

  ghost predicate Inv(w: World) {
    Tracked(w) && Guarded(w) && FlagsAgree(w)
  }

  lemma {:induction false} OrderlyRunsKeepInv(actions: seq<Action>)
    requires OrderlyRun(START, actions)
    ensures Inv(Run(actions))
  {
    hide Tracked, Guarded, Act, Enabled, Orderly;
    if actions == [] {
      StartInv();
    } else {
      var init, a := actions[..|actions| - 1], actions[|actions| - 1];
      OrderlyRunsKeepInv(init);
      if Enabled(Run(init), a) {
        TrackedStep(Run(init), a);
        GuardedStep(Run(init), a);
        forall h | h in Run(actions).handlers
          ensures Run(actions).handlers[h].flag == Run(actions).handlers[h].box.closed
        {
          ChannelsStaySound(actions, h);
        }
      }
    }
  }

  lemma StartInv()
    ensures Tracked(START) && Guarded(START)
  {}

  lemma RunSplit(w: World, actions: seq<Action>, more: seq<Action>)
    ensures RunFrom(w, actions + more) == RunFrom(RunFrom(w, actions), more)
    ensures OrderlyRun(w, actions + more) <==> OrderlyRun(w, actions) && OrderlyRun(RunFrom(w, actions), more)
  {
    if more == [] {
      assert actions + more == actions;
    } else {
      assert (actions + more)[..|actions + more| - 1] == actions + more[..|more| - 1];
      RunSplit(w, actions, more[..|more| - 1]);
    }
  }

  /** Once shutdown is over, nothing that is not ready becomes ready and nobody new begins to serve. */
  lemma FinishedStep(w: World, a: Action, h: nat)
    requires Enabled(w, a) && w.shutdown.Finished? && !w.ready && !a.MarkReady?
    ensures var v := Act(w, a);
            && v.shutdown.Finished? && !v.ready
            && (h in v.handlers && v.handlers[h].Serving() ==> h in w.handlers && w.handlers[h].Serving())
            && (forall x :: x in v.sidecars ==> x in w.sidecars && v.sidecars[x] == w.sidecars[x])
  {
    hide Handlers;
    if h in w.handlers {
      HandlerStep(w, a, h);
    } else if h in Act(w, a).handlers {
      NewHandler(w, a, h);
    }
  }

  /** In every orderly run, once shutdown is over no sidecar is ever registered again, and whoever still
      serves served before and has its channel closed. */
  lemma {:induction false} ShutdownIsFinal(actions: seq<Action>, more: seq<Action>, h: nat)
    requires OrderlyRun(START, actions + more) && Run(actions).shutdown.Finished?
    ensures var w, v := Run(actions), Run(actions + more);
            && v.shutdown.Finished? && !v.ready
            && (h in v.handlers && v.handlers[h].Serving() ==>
                  v.handlers[h].box.closed && h in w.handlers && w.handlers[h].Serving())
            && (forall x :: x in v.sidecars ==> x in w.sidecars && v.sidecars[x] == w.sidecars[x])
    decreases more
  {
    hide Tracked, Act, Enabled, FlagsAgree;
    OrderlyRunsKeepInv(actions + more);
    if more == [] {
      assert actions + more == actions;
    } else {
      var all := actions + more;
      var init, a := actions + more[..|more| - 1], all[|all| - 1];
      assert all[..|all| - 1] == init;
      ShutdownIsFinal(actions, more[..|more| - 1], h);
      if Enabled(Run(init), a) {
        FinishedStep(Run(init), a, h);
      }
    }
  }

  // --- What the two conditions are for ---

  lemma {:induction false} NeverReadyAgain(w: World, more: seq<Action>, h: nat)
    requires w.shutdown.Finished? && w.marked && !w.ready
    ensures var v := RunFrom(w, more);
            && v.shutdown.Finished? && v.marked && !v.ready
            && (h in v.handlers && v.handlers[h].Serving() ==> h in w.handlers && w.handlers[h].Serving())
    decreases more
  {
    hide Act;
    if more != [] {
      var init, a := more[..|more| - 1], more[|more| - 1];
      NeverReadyAgain(w, init, h);
      if Enabled(RunFrom(w, init), a) {
        FinishedStep(RunFrom(w, init), a, h);
        StaysMarked(RunFrom(w, init), a);
      }
    }
  }

  lemma StaysMarked(w: World, a: Action)
    requires Enabled(w, a) && w.marked
    ensures Act(w, a).marked
  {}

  lemma FreshHandler(w: World) returns (h: nat)
    ensures h !in w.handlers
  {
    h := Bound(w.handlers.Keys);
  }

  lemma {:induction false} Bound(s: set<nat>) returns (b: nat)
    ensures forall h :: h in s ==> h < b
  {
    if h :| h in s {
      b := Bound(s - {h});
      b := if b > h then b else h + 1;
      assert forall g :: g in s ==> g == h || g in s - {h};
    } else {
      b := 0;
    }
  }

  function Newcomer(h: nat): seq<Action> {
    [MarkReady, Subscribe(h, "", ""), ListInitial(h, []), Register(h)]
  }

  /** A server that is or can still become ready after its shutdown takes a new handler until it is stopped. */
  lemma NewcomerServes(w: World, h: nat)
    requires w.shutdown.Finished? && h !in w.handlers && !w.stopped && (!w.marked || w.ready)
    ensures var v := RunFrom(w, Newcomer(h));
            h in v.handlers && v.handlers[h].stage.Live? && !v.handlers[h].box.closed
  {
    var a1: seq<Action> := [MarkReady];
    var a2 := a1 + [Subscribe(h, "", "")];
    var a3 := a2 + [ListInitial(h, [])];
    assert Newcomer(h) == a3 + [Register(h)] && a1 == [] + [MarkReady];
    RunLast(w, [], MarkReady);
    RunLast(w, a1, Subscribe(h, "", ""));
    RunLast(w, a2, ListInitial(h, []));
    RunLast(w, a3, Register(h));
  }

  /** Between the first readiness check and the registration. */
  predicate UnderWay(w: World, h: nat) {
    At(w, h, Created) || At(w, h, Listed)
  }

  function Latecomer(h: nat): seq<Action> {
    [MarkReady, ListInitial(h, []), Register(h)]
  }

  /** A subscription that is under way goes through, if the server is or can become ready, even when stopped. */
  lemma LatecomerServes(w: World, h: nat)
    requires w.shutdown.Finished? && UnderWay(w, h) && (!w.marked || w.ready)
    ensures var v := RunFrom(w, Latecomer(h));
            h in v.handlers && v.handlers[h].stage.Live?
  {
    var a1: seq<Action> := [MarkReady];
    var a2 := a1 + [ListInitial(h, [])];
    assert Latecomer(h) == a2 + [Register(h)] && a1 == [] + [MarkReady];
    RunLast(w, [], MarkReady);
    RunLast(w, a1, ListInitial(h, []));
    RunLast(w, a2, Register(h));
  }

  ghost predicate AllThrough(w: World) {
    w.stopped && forall h :: !UnderWay(w, h)
  }

  lemma AllThroughStep(w: World, a: Action, h: nat)
    requires AllThrough(w) && Enabled(w, a)
    ensures AllThrough(Act(w, a))
    ensures var v := Act(w, a);
            h in v.handlers && v.handlers[h].Serving() ==> h in w.handlers && w.handlers[h].Serving()
  {
    assert a.Register? ==> UnderWay(w, a.h);
    forall g ensures UnderWay(Act(w, a), g) ==> UnderWay(w, g) {}
  }

  lemma {:induction false} AllThroughStays(w: World, more: seq<Action>, h: nat)
    requires AllThrough(w)
    ensures var v := RunFrom(w, more);
            AllThrough(v) && (h in v.handlers && v.handlers[h].Serving() ==> h in w.handlers && w.handlers[h].Serving())
    decreases more
  {
    hide Act, Enabled, AllThrough;
    if more != [] {
      var init, a := more[..|more| - 1], more[|more| - 1];
      AllThroughStays(w, init, h);
      if Enabled(RunFrom(w, init), a) {
        AllThroughStep(RunFrom(w, init), a, h);
      }
    }
  }

  lemma RunLast(w: World, actions: seq<Action>, a: Action)
    ensures var v := RunFrom(w, actions);
            RunFrom(w, actions + [a]) == if Enabled(v, a) then Act(v, a) else v
  {}

  /** After the shutdown nobody can begin to serve exactly if the server had been marked ready before and is
      ready no more, or if it has been stopped with no subscription under way. Until then, marking it opens it
      again. */
  lemma NobodyBeginsToServeIff(w: World)
    requires w.shutdown.Finished?
    ensures (forall more, h :: h in RunFrom(w, more).handlers && RunFrom(w, more).handlers[h].Serving() ==>
               h in w.handlers && w.handlers[h].Serving())
       <==> (w.marked && !w.ready) || (w.stopped && forall h :: !UnderWay(w, h))
  {
    hide RunFrom;
    if (w.marked && !w.ready) || AllThrough(w) {
      forall more, h | h in RunFrom(w, more).handlers && RunFrom(w, more).handlers[h].Serving()
        ensures h in w.handlers && w.handlers[h].Serving()
      {
        if w.marked && !w.ready {
          NeverReadyAgain(w, more, h);
        } else {
          AllThroughStays(w, more, h);
        }
      }
    } else if !w.stopped {
      var h := FreshHandler(w);
      NewcomerServes(w, h);
      assert h in RunFrom(w, Newcomer(h)).handlers;
    } else {
      var h :| UnderWay(w, h);
      LatecomerServes(w, h);
      assert h in RunFrom(w, Latecomer(h)).handlers;
    }
  }

  /** A handler without a registration, and not among those about to be closed. */
  ghost predicate Orphaned(w: World, h: nat) {
    && h in w.handlers && (w.handlers[h].Serving() || w.handlers[h].stage.Ended?)
    && h !in w.sidecars.Values && (w.shutdown.Closing? ==> h !in w.shutdown.todo)
  }

  lemma OrphanStep(w: World, a: Action, h: nat)
    requires Orphaned(w, h) && Enabled(w, a)
    ensures Orphaned(Act(w, a), h) && Act(w, a).handlers[h].box.closed == w.handlers[h].box.closed
  {}

  /** An orphaned handler's channel is never closed, whatever happens, so that no shutdown ends its loop. */
  lemma {:induction false} OrphanIsNeverClosed(w: World, more: seq<Action>, h: nat)
    requires Orphaned(w, h)
    ensures Orphaned(RunFrom(w, more), h)
    ensures RunFrom(w, more).handlers[h].box.closed == w.handlers[h].box.closed
    decreases more
  {
    hide Act, Enabled, Orphaned;
    if more != [] {
      OrphanIsNeverClosed(w, more[..|more| - 1], h);
      if Enabled(RunFrom(w, more[..|more| - 1]), more[|more| - 1]) {
        OrphanStep(RunFrom(w, more[..|more| - 1]), more[|more| - 1], h);
      }
    } else {
      OrphanStart(w, h);
    }
  }

  lemma OrphanStart(w: World, h: nat)
    requires Orphaned(w, h)
    ensures h in w.handlers
  {}

  /** Registering under the id of a serving handler orphans that handler. */
  lemma ReusedIdOrphans(w: World, h: nat, g: nat, more: seq<Action>)
    requires Tracked(w) && h in w.handlers && w.handlers[h].Serving() && !w.handlers[h].box.closed
    requires w.ready && Enabled(w, Register(g)) && w.handlers[g].id == w.handlers[h].id
    ensures var v := RunFrom(Act(w, Register(g)), more);
            h in v.handlers && !v.handlers[h].box.closed
  {
    var v := Act(w, Register(g));
    HandlerStep(w, Register(g), h);
    assert Orphaned(v, h);
    OrphanIsNeverClosed(v, more, h);
  }

  /** Tracked, but for the registration of one handler, which may have been taken over. */
  ghost predicate TrackedBut(w: World, h: nat) {
    && (forall x :: x in w.sidecars ==>
          var g := w.sidecars[x];
          g in w.handlers && w.handlers[g].id == x && w.handlers[g].Serving())
    && (forall g :: g in w.handlers && w.handlers[g].Serving() && g != h ==>
          w.handlers[g].id in w.sidecars && w.sidecars[w.handlers[g].id] == g)
  }

  /** A handler that leaves removes whatever is registered under its id: the registrations are in order
      afterwards exactly if that is no other handler. */
  lemma UnregisterKeepsTrackedIff(w: World, h: nat)
    requires TrackedBut(w, h) && Enabled(w, Unregister(h))
    ensures Tracked(Act(w, Unregister(h)))
       <==> (w.handlers[h].id in w.sidecars ==> w.sidecars[w.handlers[h].id] == h)
  {
    hide Enabled, Act;
    AllSameButFor(w, Unregister(h), h);
    UnregisterShape(w, h);
    HandlerStep(w, Unregister(h), h);
    UnregisterTracks(w, Act(w, Unregister(h)), h);
  }

  lemma UnregisterShape(w: World, h: nat)
    requires Enabled(w, Unregister(h))
    ensures h in w.handlers && w.handlers[h].stage.Exiting?
    ensures Act(w, Unregister(h)).sidecars == w.sidecars - {w.handlers[h].id}
    ensures !Act(w, Unregister(h)).shutdown.Closing?
  {}

  lemma UnregisterTracks(w: World, v: World, h: nat)
    requires TrackedBut(w, h) && SameButFor(w, v, h) && h in w.handlers && h in v.handlers && !v.handlers[h].Serving()
    requires v.sidecars == w.sidecars - {w.handlers[h].id}
    ensures Tracked(v) <==> (w.handlers[h].id in w.sidecars ==> w.sidecars[w.handlers[h].id] == h)
  {
    var id := w.handlers[h].id;
    if id in w.sidecars && w.sidecars[id] != h {
      assert v.handlers[w.sidecars[id]].Serving();
    }
  }

  /** A successor under the same id loses its registration when its predecessor leaves, and then nobody ever
      closes its channel. */
  lemma LateExitOrphansSuccessor(w: World, h: nat, g: nat, more: seq<Action>)
    requires TrackedBut(w, h) && Enabled(w, Unregister(h)) && g != h
    requires w.handlers[h].id in w.sidecars && w.sidecars[w.handlers[h].id] == g && !w.handlers[g].box.closed
    ensures var v := RunFrom(Act(w, Unregister(h)), more);
            g in v.handlers && !v.handlers[g].box.closed
  {
    hide Enabled, Act;
    var v := Act(w, Unregister(h));
    HandlerStep(w, Unregister(h), g);
    UnregisterShape(w, h);
    assert Orphaned(v, g);
    OrphanIsNeverClosed(v, more, g);
  }

  // --- The two readiness checks ---

  /** The k-th action is taken, while the server is ready. */
  predicate TakenWhileReady(actions: seq<Action>, k: nat, a: Action)
    requires k < |actions|
  {
    actions[k] == a && Enabled(Run(actions[..k]), a) && Run(actions[..k]).ready
  }

  ghost predicate BegunWhileReady(actions: seq<Action>, h: nat, id: string, service: string) {
    exists k :: 0 <= k < |actions| && TakenWhileReady(actions, k, Subscribe(h, id, service))
  }

  ghost predicate RegisteredWhileReady(actions: seq<Action>, h: nat) {
    exists k :: 0 <= k < |actions| && TakenWhileReady(actions, k, Register(h))
  }

  lemma OneLess(actions: seq<Action>, k: nat)
    requires k < |actions| - 1
    ensures actions[..|actions| - 1][k] == actions[k] && actions[..|actions| - 1][..k] == actions[..k]
  {}

  lemma StillWhileReady(actions: seq<Action>, h: nat, id: string, service: string)
    requires actions != []
    ensures BegunWhileReady(actions[..|actions| - 1], h, id, service) ==> BegunWhileReady(actions, h, id, service)
    ensures RegisteredWhileReady(actions[..|actions| - 1], h) ==> RegisteredWhileReady(actions, h)
  {
    hide Run, Enabled;
    var init := actions[..|actions| - 1];
    if BegunWhileReady(init, h, id, service) {
      var k :| 0 <= k < |init| && TakenWhileReady(init, k, Subscribe(h, id, service));
      OneLess(actions, k);
      assert TakenWhileReady(actions, k, Subscribe(h, id, service));
    }
    if RegisteredWhileReady(init, h) {
      var k :| 0 <= k < |init| && TakenWhileReady(init, k, Register(h));
      OneLess(actions, k);
      assert TakenWhileReady(actions, k, Register(h));
    }
  }

  lemma BeginningStep(w: World, a: Action, h: nat)
    requires Enabled(w, a) && h in Act(w, a).handlers
    ensures var y := Act(w, a).handlers[h];
            && (if h in w.handlers then y.id == w.handlers[h].id && y.service == w.handlers[h].service
                else w.ready && a == Subscribe(h, y.id, y.service))
            && (y.Serving() ==> (h in w.handlers && w.handlers[h].Serving()) || (w.ready && a == Register(h)))
            && (y.box.closed ==> !w.shutdown.Running? || (h in w.handlers && w.handlers[h].box.closed))
    ensures !w.shutdown.Running? ==> !Act(w, a).shutdown.Running?
  {}

  /** Both checks at work: every handler, under its id and for its service, was created by a subscription taken
      while the server was ready, and one that serves was registered while it was ready. No channel is closed before
      the shutdown begins. */
  lemma {:induction false} ServedOnlyWhileReady(actions: seq<Action>, h: nat)
    requires h in Run(actions).handlers
    ensures var x := Run(actions).handlers[h];
            && BegunWhileReady(actions, h, x.id, x.service)
            && (x.Serving() ==> RegisteredWhileReady(actions, h))
            && (x.box.closed ==> !Run(actions).shutdown.Running?)
  {
    hide Act, Enabled, BegunWhileReady, RegisteredWhileReady;
    if actions != [] {
      var init, a := actions[..|actions| - 1], actions[|actions| - 1];
      var w := Run(init);
      if h in w.handlers {
        ServedOnlyWhileReady(init, h);
      }
      var x := Run(actions).handlers[h];
      StillWhileReady(actions, h, x.id, x.service);
      if Enabled(w, a) {
        BeginningStep(w, a, h);
        if w.ready {
          TakenLast(actions, h, x.id, x.service);
        }
      }
    }
  }

  lemma TakenLast(actions: seq<Action>, h: nat, id: string, service: string)
    requires actions != []
    requires var w := Run(actions[..|actions| - 1]); w.ready && Enabled(w, actions[|actions| - 1])
    ensures actions[|actions| - 1] == Subscribe(h, id, service) ==> BegunWhileReady(actions, h, id, service)
    ensures actions[|actions| - 1] == Register(h) ==> RegisteredWhileReady(actions, h)
  {
    hide Run, Enabled;
    var k := |actions| - 1;
    assert actions[k] == Subscribe(h, id, service) ==> TakenWhileReady(actions, k, Subscribe(h, id, service));
    assert actions[k] == Register(h) ==> TakenWhileReady(actions, k, Register(h));
  }

  // --- Draining ---

  /** Passing on what is left, then leaving. */
  function Drain(h: nat, n: nat): seq<Action> {
    seq(n, i => Receive(h)) + [ChannelEnd(h), Unregister(h)]
  }

  lemma {:induction false} ReceivesDrain(w: World, h: nat, n: nat)
    requires At(w, h, Live) && n <= |w.handlers[h].box.buffer|
    ensures var v, x := RunFrom(w, seq(n, i => Receive(h))), w.handlers[h];
            && v.shutdown == w.shutdown && h in v.handlers
            && v.handlers[h] == x.(received := x.received + x.box.buffer[..n],
                                   box := x.box.(buffer := x.box.buffer[n..]))
  {
    if n > 0 {
      var all: seq<Action> := seq(n, i => Receive(h));
      assert all[..n - 1] == seq(n - 1, i => Receive(h));
      ReceivesDrain(w, h, n - 1);
      var x := w.handlers[h];
      assert x.received + x.box.buffer[..n] == x.received + x.box.buffer[..n - 1] + [x.box.buffer[n - 1]];
    } else {
      assert seq(n, i => Receive(h)) == [];
      var x := w.handlers[h];
      assert x.received + x.box.buffer[..0] == x.received;
    }
  }

  /** After shutdown a handler whose channel is closed can pass on all it has buffered and then ends. */
  lemma ClosedHandlerEnds(w: World, h: nat)
    requires w.shutdown.Finished? && At(w, h, Live) && w.handlers[h].box.closed
    ensures var x := w.handlers[h];
            var v := RunFrom(w, Drain(h, |x.box.buffer|));
            && At(v, h, Ended) && v.handlers[h].received == x.received + x.box.buffer
  {
    var x := w.handlers[h];
    var n := |x.box.buffer|;
    var all := Drain(h, n);
    ReceivesDrain(w, h, n);
    assert x.box.buffer[..n] == x.box.buffer && x.box.buffer[n..] == [];
    var receives: seq<Action> := seq(n, i => Receive(h));
    assert all == receives + [ChannelEnd(h)] + [Unregister(h)];
    RunLast(w, receives, ChannelEnd(h));
    RunLast(w, receives + [ChannelEnd(h)], Unregister(h));
  }

  /** A closed channel only empties: later offers leave no trace in it. */
  lemma ClosedOnlyEmpties(w: World, a: Action, h: nat)
    requires Enabled(w, a) && h in w.handlers && w.handlers[h].flag && w.handlers[h].box.closed
    ensures var x, y := w.handlers[h], Act(w, a).handlers[h];
            y.box.buffer == x.box.buffer || (x.box.buffer != [] && y.box.buffer == x.box.buffer[1..])
  {}
}
