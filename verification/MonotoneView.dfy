/** One subscriber of one service, from the index on the server to the cache of the client: the reconciler
    changes the index and then publishes, the subscription lists, registers and passes events on, the stream
    carries them in order, and the client takes them over. All of this interleaves freely. */
module MonotoneView {
  import opened EndpointIndex
  import opened IndexAgreement
  import opened EndpointMaps
  import opened Sidecars
  import opened ClientCaches
  import opened Wrappers

  /** An event under way, with the number of the snapshot it was made from. */
  datatype Msg = Msg(event: ClientEvent, at: nat)

  /** Where the reconciler is: between callbacks, before the lookup of the sidecar, or with a sidecar found. */
  datatype Phase = Idle | Publishing(msg: Msg) | Holding(sub: nat, msg: Msg)

  datatype Stage = Absent | Created | Listed | Live

  /** `history` holds the slices of the service after each event about it. `sub` numbers the subscriptions,
      `seen` is the number of the snapshot the client shows. A client always subscribes under one id: `entry` is
      the handler of this service registered under it, if it is one of this service. Handlers whose stream has
      broken linger, before their registration (`early`) or after it (`late`), until they notice. `others` counts
      the client's handlers for other services. */
  datatype World = World(
    view: View,
    history: seq<Slices>,
    phase: Phase,
    stage: Stage,
    sub: nat,
    entry: Option<nat>,
    early: set<nat>,
    late: set<nat>,
    others: nat,
    buffer: seq<Msg>,
    wire: seq<Msg>,
    cache: Cache,
    seen: Option<nat>)

  const START := World(map[], [], Idle, Absent, 0, None, {}, {}, 0, [], [], map[], None)

  datatype Action =
    | Change(op: Op, order: seq<string>)
    | Lookup
    | Deliver
    | Subscribe
    | ListInitial(order: seq<string>)
    | Register
    | Send
    | Recv
    | Break
    | RegisterLate(n: nat)
    | Unregister(n: nat)
    | OtherRegisters
    | OtherUnregisters

  /** Whether the cache reports a change, so that the service is published. */
  predicate Reported(v: View, op: Op) {
    op.Delete? ==> op.slice.service in v
  }

  function PublishedAs(op: Op): OpType {
    if op.Add? then ADDED else MODIFIED
  }

  /** An order in which the slices can be merged and an event be built of them. */
  ghost predicate Mergeable(slices: Slices, order: seq<string>) {
    IsOrder(slices, order) && AllTargeted(Joined(slices, order))
  }

  ghost predicate Enabled(service: string, w: World, a: Action) {
    match a
    case Change(op, order) =>
      && w.phase.Idle?
      && (op.Delete? ==> !RemovesService(w.view, op.slice))
      && (About(op) == service && Reported(w.view, op) ==> Mergeable(Entry(Apply(w.view, op), service), order))
    case Lookup => w.phase.Publishing?
    case Deliver => w.phase.Holding?
    case Subscribe => w.stage.Absent?
    case ListInitial(order) => w.stage.Created? && (service in w.view ==> Mergeable(w.view[service], order))
    case Register => w.stage.Listed?
    case Send => w.stage.Live? && w.buffer != []
    case Recv => w.wire != []
    case Break => !w.stage.Absent?
    case RegisterLate(n) => n in w.early
    case Unregister(n) => n in w.late
    case OtherRegisters => true
    case OtherUnregisters => 0 < w.others
  }

  /** A message made from the slices of the service as the index holds them. */
  ghost function Snapshot(op: OpType, slices: Slices, order: seq<string>, at: nat): Msg
    requires IsOrder(slices, order)
  {
    Msg(ClientEvent(op, Published(slices, order)), at)
  }

  ghost function Changed(service: string, w: World, a: Action): World
    requires a.Change? && Enabled(service, w, a)
  {
    var v := Apply(w.view, a.op);
    if About(a.op) == service && Reported(w.view, a.op) then
      w.(view := v, history := w.history + [Entry(v, service)],
         phase := Publishing(Snapshot(PublishedAs(a.op), Entry(v, service), a.order, |w.history|)))
    else w.(view := v)
  }

  function Offering(w: World, m: Msg): World {
    if |w.buffer| < CHANNEL_CAPACITY then w.(buffer := w.buffer + [m]) else w
  }

  function Events(msgs: seq<Msg>): seq<ClientEvent> {
    seq(|msgs|, i requires 0 <= i < |msgs| => msgs[i].event)
  }

  /** But for the numbers, offering a message is what the sidecar's Informer does. */
  lemma OfferingIsInformer(w: World, m: Msg)
    ensures Mailbox(Events(Offering(w, m).buffer), false) == Offered(Mailbox(Events(w.buffer), false), m.event)
  {}

  /** What is published after a reported event about the service is the event the reconciler builds of the merged
      slices, as it does in its callbacks; it can be built. */
  lemma PublishedIsBuilt(service: string, w: World, a: Action)
    requires a.Change? && Enabled(service, w, a) && About(a.op) == service && Reported(w.view, a.op)
    ensures var v := Act(service, w, a);
            && v.view == Apply(w.view, a.op) && service in v.view && IsOrder(v.view[service], a.order)
            && v.phase.Publishing?
            && Built(if a.op.Add? then ADDED else MODIFIED, Joined(v.view[service], a.order))
               == Some(v.phase.msg.event)
  {}

  ghost function Act(service: string, w: World, a: Action): World
    requires Enabled(service, w, a)
  {
    match a
    case Change(_, _) => Changed(service, w, a)
    case Lookup => w.(phase := if w.entry.Some? then Holding(w.entry.value, w.phase.msg) else Idle)
    case Deliver =>
      var v := if w.phase.sub == w.sub && w.stage.Live? then Offering(w, w.phase.msg) else w;
      v.(phase := Idle)
    case Subscribe =>
      w.(stage := Created, sub := w.sub + 1, buffer := [], wire := [])
    case ListInitial(order) =>
      if service in w.view && w.history != [] then
        var at := |w.history| - 1;
        w.(stage := Listed, buffer := [Snapshot(ADDED, w.view[service], order, at)])
      else w.(stage := Listed)
    case Register => w.(stage := Live, entry := Some(w.sub))
    case Send => w.(buffer := w.buffer[1..], wire := w.wire + [w.buffer[0]])
    case Recv =>
      w.(wire := w.wire[1..], cache := Handled(w.cache, service, w.wire[0].event), seen := Some(w.wire[0].at))
    case Break =>
      w.(stage := Absent, buffer := [], wire := [],
         early := if w.stage.Live? then w.early else w.early + {w.sub},
         late := if w.stage.Live? then w.late + {w.sub} else w.late)
    case RegisterLate(n) => w.(early := w.early - {n}, late := w.late + {n}, entry := Some(n))
    case Unregister(n) => w.(late := w.late - {n}, entry := None)
    case OtherRegisters => w.(others := w.others + 1, entry := None)
    case OtherUnregisters => w.(others := w.others - 1, entry := None)
  }

  /** The state a schedule leads to; an action that is not enabled when its turn comes does nothing. */
  ghost function RunFrom(service: string, w: World, actions: seq<Action>): World {
    if actions == [] then w
    else
      var v := RunFrom(service, w, actions[..|actions| - 1]);
      if Enabled(service, v, actions[|actions| - 1]) then Act(service, v, actions[|actions| - 1]) else v
  }

  ghost function Run(service: string, actions: seq<Action>): World {
    RunFrom(service, START, actions)
  }

  // --- Invariants ---

  /** The event shows the endpoints of the numbered snapshot, merged in some order. */
  ghost predicate Shows(history: seq<Slices>, e: ClientEvent, at: nat) {
    && at < |history| && !e.op.DELETED?
    && exists order :: IsOrder(history[at], order) && e.endpoints == Published(history[at], order)
  }

  function Latest(w: World): Option<nat> {
    if w.history == [] then None else Some(|w.history| - 1)
  }

  /** What the client will have seen when everything under way has arrived. */
  function Coming(w: World): Option<nat> {
    if Msgs(w) == [] then w.seen else Some(Msgs(w)[|Msgs(w)| - 1].at)
  }

  /** What is under way to the client, oldest first. */
  function Msgs(w: World): seq<Msg> {
    w.wire + w.buffer
  }

  predicate NotAfter(a: Option<nat>, b: Option<nat>) {
    a.Some? ==> b.Some? && a.value <= b.value
  }

  ghost predicate IndexInv(service: string, w: World) {
    && (service in w.view <==> w.history != [])
    && (service in w.view ==> w.view[service] == w.history[|w.history| - 1])
  }

  ghost predicate ContentInv(service: string, w: World) {
    && (forall m :: m in Msgs(w) ==> Shows(w.history, m.event, m.at))
    && (!w.phase.Idle? ==> Shows(w.history, w.phase.msg.event, w.phase.msg.at))
    && (w.seen.None? ==> service !in w.cache)
    && (w.seen.Some? ==> service in w.cache && Shows(w.history, w.cache[service], w.seen.value))
  }

  /** Numbers never decrease on the way to the client, and what is being published is the latest. */
  ghost predicate OrderInv(w: World) {
    var msgs := Msgs(w);
    && (forall i, j :: 0 <= i < j < |msgs| ==> msgs[i].at <= msgs[j].at)
    && (forall m :: m in msgs ==> NotAfter(w.seen, Some(m.at)) && m.at < |w.history|)
    && NotAfter(w.seen, Latest(w))
    && (!w.phase.Idle? ==> Some(w.phase.msg.at) == Latest(w))
  }

  lemma IndexStep(service: string, w: World, a: Action)
    requires Enabled(service, w, a) && IndexInv(service, w)
    ensures IndexInv(service, Act(service, w, a))
  {}

  lemma ShowsLater(history: seq<Slices>, more: seq<Slices>, e: ClientEvent, at: nat)
    requires Shows(history, e, at)
    ensures Shows(history + more, e, at)
  {
    assert (history + more)[at] == history[at];
  }

  lemma SnapshotShows(history: seq<Slices>, op: OpType, order: seq<string>)
    requires history != [] && !op.DELETED? && IsOrder(history[|history| - 1], order)
    ensures Shows(history, Snapshot(op, history[|history| - 1], order, |history| - 1).event, |history| - 1)
  {}

  lemma ChangeKeepsContent(service: string, w: World, a: Action)
    requires a.Change? && Enabled(service, w, a) && ContentInv(service, w)
    ensures ContentInv(service, Act(service, w, a))
  {
    hide Shows, IsOrder, Apply;
    var v := Act(service, w, a);
    if v.history != w.history {
      var more := [Entry(v.view, service)];
      assert v.history == w.history + more;
      forall m | m in Msgs(w) ensures Shows(v.history, m.event, m.at) {
        ShowsLater(w.history, more, m.event, m.at);
      }
      if w.seen.Some? {
        ShowsLater(w.history, more, w.cache[service], w.seen.value);
      }
      SnapshotShows(v.history, PublishedAs(a.op), a.order);
    }
  }

  /** What an action does to the messages under way. */
  lemma MsgsStep(service: string, w: World, a: Action)
    requires Enabled(service, w, a)
    ensures var v, msgs := Act(service, w, a), Msgs(w);
            match a
            case Deliver => Msgs(v) == msgs || Msgs(v) == msgs + [w.phase.msg]
            case ListInitial(_) => v.buffer == w.buffer || (|v.buffer| == 1 && Msgs(v) == w.wire + v.buffer)
            case Recv => msgs != [] && msgs[0] == w.wire[0] && Msgs(v) == msgs[1..]
            case Subscribe => Msgs(v) == []
            case Break => Msgs(v) == []
            case _ => Msgs(v) == msgs
  {}

  lemma ContentStep(service: string, w: World, a: Action)
    requires Enabled(service, w, a) && IndexInv(service, w) && ContentInv(service, w)
    ensures ContentInv(service, Act(service, w, a))
  {
    hide Shows, IsOrder, Snapshot, Changed, Offering;
    match a
    case Change(_, _) => ChangeKeepsContent(service, w, a);
    case ListInitial(_) => ListKeepsContent(service, w, a);
    case Deliver => DeliverKeepsContent(service, w);
    case Recv => RecvKeepsContent(service, w);
    case _ => MsgsStep(service, w, a);
  }

  lemma ListKeepsContent(service: string, w: World, a: Action)
    requires a.ListInitial? && Enabled(service, w, a) && IndexInv(service, w) && ContentInv(service, w)
    ensures ContentInv(service, Act(service, w, a))
  {}

  lemma DeliverKeepsContent(service: string, w: World)
    requires Enabled(service, w, Deliver) && ContentInv(service, w)
    ensures ContentInv(service, Act(service, w, Deliver))
  {
    hide Shows;
    MsgsStep(service, w, Deliver);
  }

  lemma RecvKeepsContent(service: string, w: World)
    requires Enabled(service, w, Recv) && ContentInv(service, w)
    ensures ContentInv(service, Act(service, w, Recv))
  {}

  lemma OrderStep(service: string, w: World, a: Action)
    requires Enabled(service, w, a) && IndexInv(service, w) && OrderInv(w)
    ensures OrderInv(Act(service, w, a))
    ensures NotAfter(w.seen, Act(service, w, a).seen)
  {
    hide OrderInv, Apply, Entry, IsOrder, Published;
    match a
    case Change(_, _) => ChangeKeepsOrder(service, w, a);
    case Deliver => DeliverKeepsOrder(service, w);
    case Recv => RecvKeepsOrder(service, w);
    case ListInitial(_) => ListKeepsOrder(service, w, a);
    case _ =>
      MsgsStep(service, w, a);
      SameOrder(w, Act(service, w, a));
  }

  lemma SameOrder(w: World, v: World)
    requires OrderInv(w) && v.history == w.history && v.seen == w.seen && (Msgs(v) == Msgs(w) || Msgs(v) == [])
    requires v.phase.Idle? || (!w.phase.Idle? && v.phase.msg == w.phase.msg)
    ensures OrderInv(v)
  {}

  lemma ChangeKeepsOrder(service: string, w: World, a: Action)
    requires a.Change? && Enabled(service, w, a) && OrderInv(w)
    ensures OrderInv(Act(service, w, a))
  {
    hide Apply, Entry, IsOrder, Published;
  }

  lemma DeliverKeepsOrder(service: string, w: World)
    requires Enabled(service, w, Deliver) && OrderInv(w)
    ensures OrderInv(Act(service, w, Deliver))
  {
    hide Msgs;
    MsgsStep(service, w, Deliver);
  }

  lemma RecvKeepsOrder(service: string, w: World)
    requires Enabled(service, w, Recv) && OrderInv(w)
    ensures OrderInv(Act(service, w, Recv)) && NotAfter(w.seen, Act(service, w, Recv).seen)
  {
    hide Msgs;
    MsgsStep(service, w, Recv);
    assert Msgs(w)[0] in Msgs(w);
    assert forall m :: m in Msgs(w)[1..] ==> m in Msgs(w);
  }

  lemma ListKeepsOrder(service: string, w: World, a: Action)
    requires a.ListInitial? && Enabled(service, w, a) && IndexInv(service, w) && OrderInv(w)
    ensures OrderInv(Act(service, w, a))
  {
    hide IsOrder, Published;
    forall i | 0 <= i < |w.wire| ensures w.wire[i].at < |w.history| && NotAfter(w.seen, Some(w.wire[i].at)) {
      assert w.wire[i] in Msgs(w);
    }
    assert forall i :: 0 <= i < |w.wire| ==> Msgs(w)[i] == w.wire[i];
  }

  // --- How far the client will get ---

  /** Nothing is buffered before the initial list. A client that will have seen the latest snapshot while it is
      being published has, at the moment, nothing but its initial list in the buffer. */
  predicate RoomInv(w: World) {
    && (w.stage.Absent? || w.stage.Created? ==> w.buffer == [])
    && (!w.phase.Idle? && Coming(w) == Latest(w) ==> |w.buffer| <= 1)
  }

  /** Passing messages on does not change what the client will have seen. */
  lemma ComingStep(service: string, w: World, a: Action)
    requires Enabled(service, w, a) && !a.Deliver? && !a.Subscribe? && !a.ListInitial? && !a.Break?
    ensures Coming(Act(service, w, a)) == Coming(w)
  {
    hide Apply, Entry, IsOrder, Published, Msgs;
    MsgsStep(service, w, a);
  }

  lemma ComingKnown(w: World)
    requires OrderInv(w)
    ensures NotAfter(Coming(w), Latest(w))
    ensures w.buffer != [] ==> Msgs(w) != []
  {}

  lemma RoomStep(service: string, w: World, a: Action)
    requires Enabled(service, w, a) && OrderInv(w) && RoomInv(w)
    ensures RoomInv(Act(service, w, a))
  {
    hide IsOrder, Apply, Entry, Published, Coming, OrderInv, Shows;
    match a
    case Deliver =>
    case ListInitial(_) =>
    case Subscribe =>
    case Break =>
    case Change(_, _) => ComingStep(service, w, a); ComingKnown(w);
    case _ => ComingStep(service, w, a);
  }

  ghost predicate Inv(service: string, w: World) {
    IndexInv(service, w) && ContentInv(service, w) && OrderInv(w) && RoomInv(w)
  }

  lemma StartInv(service: string)
    ensures Inv(service, START)
  {}

  lemma {:induction false} RunsKeepInv(service: string, actions: seq<Action>)
    ensures Inv(service, Run(service, actions))
  {
    hide Enabled, Act, IndexInv, ContentInv, OrderInv, RoomInv;
    if actions == [] {
      StartInv(service);
    } else {
      var w, a := Run(service, actions[..|actions| - 1]), actions[|actions| - 1];
      RunsKeepInv(service, actions[..|actions| - 1]);
      if Enabled(service, w, a) {
        IndexStep(service, w, a);
        ContentStep(service, w, a);
        OrderStep(service, w, a);
        RoomStep(service, w, a);
      }
    }
  }

  // --- The results ---

  /** At any time the client shows nothing, or the merged slices of the service as they were after some past
      event, whatever has been dropped and however often it has subscribed. */
  lemma ClientShowsASnapshot(service: string, actions: seq<Action>)
    ensures var w := Run(service, actions);
            && (service in w.cache <==> w.seen.Some?)
            && (w.seen.Some? ==> Shows(w.history, w.cache[service], w.seen.value))
  {
    RunsKeepInv(service, actions);
  }

  /** If uids are distinct, that is exactly every endpoint of the snapshot with its addresses. */
  lemma ClientShowsEveryEndpoint(service: string, actions: seq<Action>, order: seq<string>)
    requires var w := Run(service, actions);
             && w.seen.Some? && w.seen.value < |w.history|
             && DistinctUids(w.history[w.seen.value]) && IsOrder(w.history[w.seen.value], order)
    ensures var w := Run(service, actions);
            service in w.cache && w.cache[service].endpoints == Published(w.history[w.seen.value], order)
  {
    ClientShowsASnapshot(service, actions);
    var w := Run(service, actions);
    var slices := w.history[w.seen.value];
    var o :| IsOrder(slices, o) && w.cache[service].endpoints == Published(slices, o);
    DistinctUidsPublishAll(slices, o);
    ConsistentOrders(slices, o, order);
  }

  /** The client never goes back to an earlier snapshot, and the past does not change. */
  lemma {:induction false} ViewIsMonotone(service: string, actions: seq<Action>, more: seq<Action>)
    ensures var w, v := Run(service, actions), Run(service, actions + more);
            NotAfter(w.seen, v.seen) && w.history <= v.history
    decreases more
  {
    hide Enabled, Act, IndexInv, ContentInv, OrderInv, RoomInv;
    if more == [] {
      assert actions + more == actions;
    } else {
      var all, init := actions + more, actions + more[..|more| - 1];
      assert all[..|all| - 1] == init;
      ViewIsMonotone(service, actions, more[..|more| - 1]);
      var v, a := Run(service, init), all[|all| - 1];
      RunsKeepInv(service, init);
      if Enabled(service, v, a) {
        OrderStep(service, v, a);
        HistoryGrows(service, v, a);
      }
    }
  }

  lemma HistoryGrows(service: string, w: World, a: Action)
    requires Enabled(service, w, a)
    ensures w.history <= Act(service, w, a).history
  {}

  // --- A client whose registration is taken over ---

  /** The client is in its receive loop, but its id is not, or no longer, registered for this service, and no
      event is being offered to it. */
  predicate TakenOver(w: World) {
    w.stage.Live? && w.entry != Some(w.sub) && !(w.phase.Holding? && w.phase.sub == w.sub)
  }

  lemma TakenOverStep(service: string, w: World, a: Action)
    requires Enabled(service, w, a) && !a.Break? && TakenOver(w) && w.sub !in w.early && w.sub !in w.late
    ensures var v := Act(service, w, a);
            && TakenOver(v) && v.sub == w.sub && v.sub !in v.early && v.sub !in v.late
            && Coming(v) == Coming(w) && |w.history| <= |v.history|
  {
    hide IsOrder, Apply, Entry, Published, Coming;
    if a.Deliver? {
      NothingDelivered(service, w);
    } else {
      ComingStep(service, w, a);
    }
  }

  lemma NothingDelivered(service: string, w: World)
    requires Enabled(service, w, Deliver) && TakenOver(w)
    ensures Coming(Act(service, w, Deliver)) == Coming(w)
  {}

  lemma {:induction false} TakenOverRun(service: string, w: World, more: seq<Action>)
    requires TakenOver(w) && w.sub !in w.early && w.sub !in w.late
    requires forall i :: 0 <= i < |more| ==> !more[i].Break?
    ensures var v := RunFrom(service, w, more);
            && TakenOver(v) && v.sub == w.sub && v.sub !in v.early && v.sub !in v.late
            && Coming(v) == Coming(w) && |w.history| <= |v.history|
    decreases more
  {
    hide Enabled, Act, TakenOver, Coming;
    if more != [] {
      var init, a := more[..|more| - 1], more[|more| - 1];
      TakenOverRun(service, w, init);
      if Enabled(service, RunFrom(service, w, init), a) {
        TakenOverStep(service, RunFrom(service, w, init), a);
      }
    }
  }

  /** Lingering handlers are of earlier subscriptions, or of this one once its stream has broken. */
  ghost predicate Lingering(w: World) {
    && (forall n :: n in w.early ==> n <= w.sub) && (forall n :: n in w.late ==> n <= w.sub)
    && (!w.stage.Absent? ==> w.sub !in w.early && w.sub !in w.late)
  }

  lemma LingeringStep(service: string, w: World, a: Action)
    requires Enabled(service, w, a) && Lingering(w)
    ensures Lingering(Act(service, w, a))
  {
    hide IsOrder, Apply, Entry, Published;
  }

  lemma {:induction false} RunsKeepLingering(service: string, actions: seq<Action>)
    ensures Lingering(Run(service, actions))
  {
    hide Enabled, Act, Lingering;
    if actions == [] {
      LingeringStart();
    } else if Enabled(service, Run(service, actions[..|actions| - 1]), actions[|actions| - 1]) {
      RunsKeepLingering(service, actions[..|actions| - 1]);
      LingeringStep(service, Run(service, actions[..|actions| - 1]), actions[|actions| - 1]);
    } else {
      RunsKeepLingering(service, actions[..|actions| - 1]);
    }
  }

  lemma LingeringStart()
    ensures Lingering(START)
  {}

  /** A client whose registration has been taken over, whose stream stays up, and to which everything under way
      has been delivered, shows the latest snapshot exactly if it was going to when that happened, and no event
      about the service has come since. Nothing need be dropped for it to fall behind. */
  lemma TakenOverFallsBehindIff(service: string, actions: seq<Action>, more: seq<Action>)
    requires TakenOver(Run(service, actions)) && forall i :: 0 <= i < |more| ==> !more[i].Break?
    requires var v := RunFrom(service, Run(service, actions), more); v.buffer == [] && v.wire == []
    ensures var w, v := Run(service, actions), RunFrom(service, Run(service, actions), more);
            v.seen == Latest(v) <==> Coming(w) == Latest(w) && |v.history| == |w.history|
  {
    hide Run, RunFrom, TakenOver, IndexInv, ContentInv, OrderInv, RoomInv;
    var w := Run(service, actions);
    RunsKeepLingering(service, actions);
    RunsKeepInv(service, actions);
    ComingKnown(w);
    StaysUp(w);
    TakenOverRun(service, w, more);
  }

  lemma StaysUp(w: World)
    requires TakenOver(w)
    ensures !w.stage.Absent?
  {}

  /** Any handler of the same client that registers late or unregisters, of this service or another, takes the
      registration away. */
  predicate TakesOver(a: Action) {
    a.RegisterLate? || a.Unregister? || a.OtherRegisters? || a.OtherUnregisters?
  }

  lemma TakeoverStep(service: string, w: World, a: Action)
    requires Enabled(service, w, a) && TakesOver(a) && Lingering(w)
    requires w.stage.Live? && !(w.phase.Holding? && w.phase.sub == w.sub)
    ensures var v := Act(service, w, a); TakenOver(v) && Coming(v) == Coming(w) && v.history == w.history
  {
    hide IsOrder, Apply, Entry, Published;
    ComingStep(service, w, a);
  }

  /** A registered client, with no event being offered to it, whose stream stays up while another handler of its id
      registers late or unregisters: once everything is delivered it shows the latest snapshot exactly if it was
      going to before, and no event about the service has come since. */
  lemma TakeoverSilencesIff(service: string, actions: seq<Action>, a: Action, more: seq<Action>)
    requires var w := Run(service, actions);
             && Enabled(service, w, a) && TakesOver(a)
             && w.stage.Live? && !(w.phase.Holding? && w.phase.sub == w.sub)
    requires forall i :: 0 <= i < |more| ==> !more[i].Break?
    requires var v := RunFrom(service, Act(service, Run(service, actions), a), more); v.buffer == [] && v.wire == []
    ensures var w, v := Run(service, actions), RunFrom(service, Act(service, Run(service, actions), a), more);
            v.seen == Latest(v) <==> Coming(w) == Latest(w) && |v.history| == |w.history|
  {
    hide Run, RunFrom, Enabled, Act, TakenOver, Coming;
    RunsKeepLingering(service, actions);
    TakeoverStep(service, Run(service, actions), a);
    RunLast(service, actions, a);
    TakenOverFallsBehindIff(service, actions + [a], more);
  }

  /** A client subscribes to a service and then to another; the first service gets its first slice. Nothing has
      been dropped, nothing is under way, and the client does not show the slice. */
  lemma SecondServiceSilencesFirst(service: string, es: EndpointSlice)
    requires es.service == service && AllTargeted(es.endpoints)
    ensures var actions := [Subscribe, ListInitial([]), Register, OtherRegisters, Change(Add(es), [es.name]), Lookup];
            var w := Run(service, actions);
            && w.stage.Live? && w.phase.Idle? && w.buffer == [] && w.wire == []
            && w.early == {} && w.late == {}
            && service in w.view && service !in w.cache && w.seen != Latest(w)
  {
    hide Published;
    var a1: seq<Action> := [Subscribe];
    var a2 := a1 + [ListInitial([])];
    var a3 := a2 + [Register];
    var a4 := a3 + [OtherRegisters];
    var a5 := a4 + [Change(Add(es), [es.name])];
    var a6 := a5 + [Lookup];
    assert a6 == [Subscribe, ListInitial([]), Register, OtherRegisters, Change(Add(es), [es.name]), Lookup];
    RunLast(service, [], Subscribe);
    assert [] + [Subscribe] == a1;
    RunLast(service, a1, ListInitial([]));
    RunLast(service, a2, Register);
    RunLast(service, a3, OtherRegisters);
    var w4 := Run(service, a4);
    assert w4.stage.Live? && w4.entry == None && w4.view == map[] && w4.history == [] && w4.phase.Idle?;
    var slices := map[es.name := es];
    assert Entry(Apply(w4.view, Add(es)), service) == slices;
    assert [es.name][..0] == [] && Joined(slices, []) == [] && Joined(slices, [es.name]) == [] + es.endpoints;
    RunLast(service, a4, Change(Add(es), [es.name]));
    RunLast(service, a5, Lookup);
  }

  lemma RunLast(service: string, actions: seq<Action>, a: Action)
    ensures var v := Run(service, actions);
            Run(service, actions + [a]) == if Enabled(service, v, a) then Act(service, v, a) else v
  {
    assert (actions + [a])[..|actions|] == actions;
  }
}
