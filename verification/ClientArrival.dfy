/** What a client shows once everything under way has reached it, read off the actions of the run alone: which of
    them sent something, and what the index held when they did. */
module ClientArrival {
  import opened EndpointIndex
  import IndexAgreement
  import opened EndpointMaps
  import opened Sidecars
  import opened ClientCaches
  import opened MonotoneView
  import opened Wrappers

  /** The state after the first `k` actions. */
  ghost function At(service: string, actions: seq<Action>, k: nat): World
    requires k <= |actions|
  {
    Run(service, actions[..k])
  }

  ghost predicate Happens(service: string, actions: seq<Action>, k: nat)
    requires k < |actions|
  {
    Enabled(service, At(service, actions, k), actions[k])
  }

  /** The k-th action offers an event to the handler of the subscription under way. */
  ghost predicate Offers(service: string, actions: seq<Action>, k: nat)
    requires k < |actions|
  {
    var w := At(service, actions, k);
    Happens(service, actions, k) && actions[k].Deliver? && w.stage.Live? && w.phase.sub == w.sub
  }

  ghost predicate HasRoom(service: string, actions: seq<Action>, k: nat)
    requires k < |actions|
  {
    |At(service, actions, k).buffer| < CHANNEL_CAPACITY
  }

  /** The k-th action lists for the subscription, or offers it an event while its channel has room. */
  ghost predicate Sends(service: string, actions: seq<Action>, k: nat)
    requires k < |actions|
  {
    || (Happens(service, actions, k) && actions[k].ListInitial?)
    || (Offers(service, actions, k) && HasRoom(service, actions, k))
  }

  ghost predicate StreamBreaks(service: string, actions: seq<Action>, k: nat)
    requires k < |actions|
  {
    Happens(service, actions, k) && actions[k].Break?
  }

  ghost predicate StreamHolds(service: string, actions: seq<Action>, from: nat) {
    forall i :: from < i < |actions| ==> !StreamBreaks(service, actions, i)
  }

  /** The k-th action is the last that sent anything, and the stream has held since. */
  ghost predicate SentLast(service: string, actions: seq<Action>, k: nat) {
    && k < |actions| && Sends(service, actions, k) && StreamHolds(service, actions, k)
    && forall i :: k < i < |actions| ==> !Sends(service, actions, i)
  }

  /** The client's cache has the service exactly if the index had it then, with its slices of then merged in some
      order. */
  ghost predicate ShowsViewOf(service: string, cache: Cache, view: View) {
    && (service in cache <==> service in view)
    && (service in cache ==>
          exists order :: IsOrder(view[service], order)
                          && cache[service].endpoints == Published(view[service], order))
  }

  lemma OneMore(service: string, actions: seq<Action>, k: nat)
    requires k < |actions|
    ensures var w := At(service, actions, k);
            At(service, actions, k + 1) == if Happens(service, actions, k) then Act(service, w, actions[k]) else w
  {
    assert actions[..k + 1] == actions[..k] + [actions[k]];
    RunLast(service, actions[..k], actions[k]);
  }

  // --- Once everything has arrived, the client shows what it was sent last ---

  predicate Streaming(w: World) {
    w.stage.Listed? || w.stage.Live?
  }

  lemma SendingStep(service: string, w: World, a: Action)
    requires Enabled(service, w, a) && Inv(service, w)
    requires a.ListInitial? || (a.Deliver? && w.stage.Live? && w.phase.sub == w.sub && |w.buffer| < CHANNEL_CAPACITY)
    ensures var v := Act(service, w, a);
            Streaming(v) && Coming(v) == Latest(w) && v.history == w.history
  {
    hide IsOrder, Published, Shows;
    if a.Deliver? {
      assert Msgs(Act(service, w, a)) == Msgs(w) + [w.phase.msg];
    }
    ComingKnown(w);
  }

  /** Any other action leaves open what the client will have seen. */
  lemma NotSendingStep(service: string, w: World, a: Action)
    requires Enabled(service, w, a) && Streaming(w) && !a.Break?
    requires a.Deliver? && w.stage.Live? && w.phase.sub == w.sub ==> |w.buffer| >= CHANNEL_CAPACITY
    ensures var v := Act(service, w, a);
            && Streaming(v) && (w.stage.Live? ==> v.stage.Live?) && (v.stage.Live? && !w.stage.Live? ==> a.Register?)
            && Coming(v) == Coming(w) && w.history <= v.history
  {
    hide IsOrder, Published, Coming, IndexAgreement.Apply, Entry;
    if !a.Deliver? {
      ComingStep(service, w, a);
    } else {
      Undelivered(service, w);
    }
  }

  lemma Undelivered(service: string, w: World)
    requires Enabled(service, w, Deliver)
    requires w.stage.Live? && w.phase.sub == w.sub ==> |w.buffer| >= CHANNEL_CAPACITY
    ensures Coming(Act(service, w, Deliver)) == Coming(w)
  {}

  lemma {:induction false} ComingIsLastSent(service: string, actions: seq<Action>, k: nat, j: nat)
    requires k < j <= |actions| && Sends(service, actions, k)
    requires forall i :: k < i < j ==> !Sends(service, actions, i) && !StreamBreaks(service, actions, i)
    ensures var u, w := At(service, actions, k), At(service, actions, j);
            Streaming(w) && Coming(w) == Latest(u) && u.history <= w.history
  {
    hide Enabled, Act, Inv, Coming, Streaming, Run;
    OneMore(service, actions, j - 1);
    if k == j - 1 {
      RunsKeepInv(service, actions[..k]);
      SendingStep(service, At(service, actions, k), actions[k]);
    } else {
      ComingIsLastSent(service, actions, k, j - 1);
      if Happens(service, actions, j - 1) {
        assert !Sends(service, actions, j - 1) && !StreamBreaks(service, actions, j - 1);
        NotSendingStep(service, At(service, actions, j - 1), actions[j - 1]);
      }
    }
  }

  lemma SeenView(service: string, w: World, u: World)
    requires Inv(service, w) && Inv(service, u) && u.history <= w.history && w.seen == Latest(u)
    ensures ShowsViewOf(service, w.cache, u.view)
  {
    hide Published, IsOrder, OrderInv, RoomInv;
  }

  /** In every run: once everything under way has arrived, the client shows the service as the index held it when
      the last action that sent anything was taken, which is its latest state exactly if no event about the
      service has come since. */
  lemma UpToDateIff(service: string, actions: seq<Action>, k: nat)
    requires SentLast(service, actions, k)
    requires var w := Run(service, actions); w.buffer == [] && w.wire == []
    ensures var u, w := At(service, actions, k), Run(service, actions);
            && ShowsViewOf(service, w.cache, u.view)
            && (w.seen == Latest(w) <==> u.history == w.history)
  {
    hide Run, Inv, Sends, StreamBreaks, ShowsViewOf, Happens;
    var u, w := At(service, actions, k), Run(service, actions);
    assert actions[..|actions|] == actions;
    ComingIsLastSent(service, actions, k, |actions|);
    RunsKeepInv(service, actions[..k]);
    RunsKeepInv(service, actions);
    NothingComing(w);
    SeenView(service, w, u);
  }

  lemma NothingComing(w: World)
    requires w.buffer == [] && w.wire == []
    ensures Coming(w) == w.seen
  {}

  // --- A client that keeps its id to one handler at a time ---

  /** The client subscribes again only when its former handler has unregistered, and to another service under
      the same id only while it is not subscribed to this one. */
  predicate Orderly(w: World, a: Action) {
    && (a.Subscribe? ==> w.early == {} && w.late == {} && w.others == 0)
    && (a.OtherRegisters? ==> w.stage.Absent?)
  }

  ghost predicate OrderlyRun(service: string, actions: seq<Action>) {
    forall k :: 0 <= k < |actions| && Happens(service, actions, k) ==> Orderly(At(service, actions, k), actions[k])
  }

  /** Then a registered client stays registered. */
  ghost predicate OrderlyInv(w: World) {
    && (!w.stage.Absent? ==> w.early == {} && w.late == {} && w.others == 0)
    && (w.entry.Some? ==> w.entry.value in w.late || (w.stage.Live? && w.entry.value == w.sub))
    && (w.stage.Live? ==> w.entry == Some(w.sub))
  }

  lemma OrderlyStep(service: string, w: World, a: Action)
    requires Enabled(service, w, a) && Orderly(w, a) && OrderlyInv(w)
    ensures OrderlyInv(Act(service, w, a))
  {
    hide IsOrder, IndexAgreement.Apply, Entry, Published;
  }

  lemma {:induction false} OrderlyRunsKeepInv(service: string, actions: seq<Action>, j: nat)
    requires OrderlyRun(service, actions) && j <= |actions|
    ensures OrderlyInv(At(service, actions, j))
  {
    hide Enabled, Act, OrderlyInv, Orderly;
    if j == 0 {
      assert actions[..0] == [];
      OrderlyStart();
    } else {
      OneMore(service, actions, j - 1);
      OrderlyRunsKeepInv(service, actions, j - 1);
      if Happens(service, actions, j - 1) {
        OrderlyStep(service, At(service, actions, j - 1), actions[j - 1]);
      }
    }
  }

  lemma OrderlyStart()
    ensures OrderlyInv(START)
  {}

  /** No event is on its way to the client's handler. */
  predicate NoneForUs(w: World) {
    w.phase.Idle? || (w.phase.Holding? && w.phase.sub != w.sub)
  }

  lemma QuietStep(service: string, w: World, a: Action)
    requires Enabled(service, w, a) && w.stage.Live? && OrderlyInv(w) && !a.Break?
    requires a.Deliver? ==> w.phase.sub != w.sub
    ensures var v := Act(service, w, a);
            v.stage.Live? && (NoneForUs(v) ==> NoneForUs(w) && v.history == w.history)
  {
    hide IsOrder, IndexAgreement.Apply, Entry, Published;
  }

  /** A registered client to which nothing is offered has missed nothing, unless something is on its way. */
  lemma {:induction false} QuietSince(service: string, actions: seq<Action>, b: nat, j: nat)
    requires b <= j <= |actions| && OrderlyRun(service, actions) && At(service, actions, b).stage.Live?
    requires forall i :: b <= i < j ==> !Offers(service, actions, i) && !StreamBreaks(service, actions, i)
    ensures At(service, actions, j).stage.Live?
    ensures NoneForUs(At(service, actions, j)) ==> At(service, actions, j).history == At(service, actions, b).history
  {
    hide Enabled, Act, OrderlyInv, OrderlyRun, Run;
    if b < j {
      QuietSince(service, actions, b, j - 1);
      OneMore(service, actions, j - 1);
      OrderlyRunsKeepInv(service, actions, j - 1);
      if Happens(service, actions, j - 1) {
        assert !Offers(service, actions, j - 1) && !StreamBreaks(service, actions, j - 1);
        QuietStep(service, At(service, actions, j - 1), actions[j - 1]);
      }
    }
  }

  // --- From the initial list to the registration ---

  /** The client lists with the l-th action and registers with the r-th, and its stream holds. */
  ghost predicate Subscribed(service: string, actions: seq<Action>, l: nat, r: nat) {
    && l < r < |actions| && StreamHolds(service, actions, l)
    && Happens(service, actions, l) && actions[l].ListInitial?
    && Happens(service, actions, r) && actions[r].Register?
  }

  lemma StageStep(service: string, w: World, a: Action)
    requires Enabled(service, w, a) && Streaming(w) && !a.Break?
    ensures var v := Act(service, w, a);
            Streaming(v) && (w.stage.Live? ==> v.stage.Live?) && !a.ListInitial?
  {
    hide IsOrder, IndexAgreement.Apply, Entry, Published;
  }

  lemma ListStep(service: string, w: World, a: Action)
    requires Enabled(service, w, a) && (a.ListInitial? || a.Register?)
    ensures var v := Act(service, w, a);
            && v.history == w.history && (a.ListInitial? ==> w.stage.Created? && v.stage.Listed?)
            && (a.Register? ==> w.stage.Listed? && v.stage.Live?)
  {
    hide IsOrder, IndexAgreement.Apply, Entry, Published;
  }

  lemma {:induction false} StaysStreaming(service: string, actions: seq<Action>, b: nat, j: nat)
    requires b <= j <= |actions| && Streaming(At(service, actions, b))
    requires forall i :: b <= i < j ==> !StreamBreaks(service, actions, i)
    ensures Streaming(At(service, actions, j))
    ensures At(service, actions, b).stage.Live? ==> At(service, actions, j).stage.Live?
  {
    hide Enabled, Act, Run;
    if b < j {
      StaysStreaming(service, actions, b, j - 1);
      OneMore(service, actions, j - 1);
      if Happens(service, actions, j - 1) {
        assert !StreamBreaks(service, actions, j - 1);
        StageStep(service, At(service, actions, j - 1), actions[j - 1]);
      }
    }
  }

  /** Between its list and its registration nothing is sent to it; after its registration it is Live and only
      offers are. */
  lemma OnlyOffersAfterRegistration(service: string, actions: seq<Action>, l: nat, r: nat, i: nat)
    requires Subscribed(service, actions, l, r) && l < i < |actions|
    ensures actions[i].ListInitial? ==> !Happens(service, actions, i)
    ensures Offers(service, actions, i) ==> r < i
  {
    hide Enabled, Act, Run;
    OneMore(service, actions, l);
    ListStep(service, At(service, actions, l), actions[l]);
    StaysStreaming(service, actions, l + 1, i);
    if Happens(service, actions, i) && actions[i].ListInitial? {
      StageStep(service, At(service, actions, i), actions[i]);
    }
    if Offers(service, actions, i) && i <= r {
      StaysStreaming(service, actions, i, r);
      ListStep(service, At(service, actions, r), actions[r]);
    }
  }

  /** The last offer after the registration. */
  ghost predicate LastOffer(service: string, actions: seq<Action>, r: nat, d: nat) {
    r < d < |actions| && Offers(service, actions, d) && NoOfferAfter(service, actions, d)
  }

  ghost predicate NoOfferAfter(service: string, actions: seq<Action>, r: nat) {
    forall i :: r < i < |actions| ==> !Offers(service, actions, i)
  }

  /** Nothing kept the client from the latest state: its last offer found room, or, without any, no event about
      the service came between its list and its registration. */
  ghost predicate NothingMissed(service: string, actions: seq<Action>, l: nat, r: nat)
    requires l < r < |actions|
  {
    || (exists d :: LastOffer(service, actions, r, d) && HasRoom(service, actions, d))
    || (NoOfferAfter(service, actions, r) && At(service, actions, l).history == At(service, actions, r).history)
  }

  lemma {:induction false} LastOfferExists(service: string, actions: seq<Action>, r: nat)
    requires !NoOfferAfter(service, actions, r)
    ensures exists d :: LastOffer(service, actions, r, d)
    decreases |actions| - r
  {
    hide Offers;
    var i :| r < i < |actions| && Offers(service, actions, i);
    if NoOfferAfter(service, actions, i) {
      assert LastOffer(service, actions, r, i);
    } else {
      LastOfferExists(service, actions, i);
      var d :| LastOffer(service, actions, i, d);
      assert LastOffer(service, actions, r, d);
    }
  }

  lemma {:induction false} LastSendExists(service: string, actions: seq<Action>, l: nat) returns (k: nat)
    requires l < |actions| && Sends(service, actions, l) && StreamHolds(service, actions, l)
    ensures l <= k < |actions| && SentLast(service, actions, k)
    decreases |actions| - l
  {
    hide Sends, StreamBreaks;
    if i :| l < i < |actions| && Sends(service, actions, i) {
      k := LastSendExists(service, actions, i);
    } else {
      k := l;
    }
  }

  lemma SameHistorySameView(service: string, cache: Cache, u: World, w: World)
    requires ShowsViewOf(service, cache, u.view) && IndexInv(service, u) && IndexInv(service, w)
    requires u.history == w.history
    ensures ShowsViewOf(service, cache, w.view)
  {}

  /** After its last offer an orderly client has missed nothing. */
  lemma QuietSinceOffer(service: string, actions: seq<Action>, d: nat)
    requires d < |actions| && OrderlyRun(service, actions) && Offers(service, actions, d)
    requires NoOfferAfter(service, actions, d) && StreamHolds(service, actions, d)
    ensures Run(service, actions).phase.Idle? ==>
              Run(service, actions).history == At(service, actions, d).history
  {
    hide Enabled, Act, OrderlyRun, Run;
    assert actions[..|actions|] == actions;
    OneMore(service, actions, d);
    OfferStep(service, At(service, actions, d));
    QuietSince(service, actions, d + 1, |actions|);
  }

  lemma OfferStep(service: string, w: World)
    requires Enabled(service, w, Deliver)
    ensures var v := Act(service, w, Deliver); v.stage == w.stage && v.history == w.history
  {}

  /** Without an offer it has missed nothing since it registered. */
  lemma QuietSinceRegistration(service: string, actions: seq<Action>, l: nat, r: nat)
    requires OrderlyRun(service, actions) && Subscribed(service, actions, l, r) && NoOfferAfter(service, actions, r)
    ensures Run(service, actions).phase.Idle? ==>
              Run(service, actions).history == At(service, actions, r).history
  {
    hide Enabled, Act, OrderlyRun, Run;
    assert actions[..|actions|] == actions;
    OneMore(service, actions, r);
    ListStep(service, At(service, actions, r), actions[r]);
    QuietSince(service, actions, r + 1, |actions|);
  }

  /** An offer that finds the channel full is of a later state than all that was sent before. */
  lemma OfferTooMany(service: string, actions: seq<Action>, l: nat, r: nat, k: nat, d: nat)
    requires Subscribed(service, actions, l, r) && l <= k && SentLast(service, actions, k)
    requires LastOffer(service, actions, r, d) && !HasRoom(service, actions, d)
    ensures At(service, actions, k).history != At(service, actions, d).history
  {
    hide Run, Enabled, Act;
    if k >= d {
      OnlyOffersAfterRegistration(service, actions, l, r, k);
      assert false;
    }
    ComingIsLastSent(service, actions, k, d);
    RunsKeepInv(service, actions[..d]);
    FullIsBehind(service, At(service, actions, d));
  }

  lemma FullIsBehind(service: string, w: World)
    requires Enabled(service, w, Deliver) && RoomInv(w) && |w.buffer| >= CHANNEL_CAPACITY
    ensures Coming(w) != Latest(w)
  {}

  /** What the client was sent last is the latest exactly if nothing was missed. */
  lemma LatestIff(service: string, actions: seq<Action>, l: nat, r: nat, k: nat)
    requires OrderlyRun(service, actions) && Subscribed(service, actions, l, r)
    requires l <= k && SentLast(service, actions, k) && Run(service, actions).phase.Idle?
    ensures At(service, actions, k).history == Run(service, actions).history <==> NothingMissed(service, actions, l, r)
    ensures At(service, actions, k).history <= Run(service, actions).history
  {
    hide Run, Enabled, Act, OrderlyRun;
    assert actions[..|actions|] == actions;
    ComingIsLastSent(service, actions, k, |actions|);
    if NoOfferAfter(service, actions, r) {
      if k != l {
        OnlyOffersAfterRegistration(service, actions, l, r, k);
        assert false;
      }
      QuietSinceRegistration(service, actions, l, r);
    } else {
      LastOfferExists(service, actions, r);
      var d :| LastOffer(service, actions, r, d);
      QuietSinceOffer(service, actions, d);
      if HasRoom(service, actions, d) {
        assert Sends(service, actions, d);
        if k != d {
          OnlyOffersAfterRegistration(service, actions, l, r, k);
          assert false;
        }
      } else {
        OfferTooMany(service, actions, l, r, k, d);
      }
    }
  }

  /** An orderly client that is registered, with the reconciler idle and everything delivered, shows the service
      as the index holds it, unless its last offer found the channel full, or there was no offer and an event
      came between its list and its registration. Otherwise it shows an older state. */
  lemma UpToDateUnlessDropped(service: string, actions: seq<Action>, l: nat, r: nat)
    requires OrderlyRun(service, actions) && Subscribed(service, actions, l, r)
    requires var w := Run(service, actions); w.phase.Idle? && w.buffer == [] && w.wire == []
    ensures var w := Run(service, actions);
            && (w.seen == Latest(w) <==> NothingMissed(service, actions, l, r))
            && (NothingMissed(service, actions, l, r) ==> ShowsViewOf(service, w.cache, w.view))
            && (!NothingMissed(service, actions, l, r) ==>
                  exists k :: && SentLast(service, actions, k)
                              && ShowsViewOf(service, w.cache, At(service, actions, k).view)
                              && |At(service, actions, k).history| < |w.history|)
  {
    hide Run, Offers, StreamBreaks, ShowsViewOf, OrderlyRun, SentLast, NothingMissed, Enabled, OrderInv;
    var k := LastSendExists(service, actions, l);
    var u, w := At(service, actions, k), Run(service, actions);
    UpToDateIff(service, actions, k);
    LatestIff(service, actions, l, r, k);
    RunsKeepInv(service, actions[..k]);
    RunsKeepInv(service, actions);
    if u.history == w.history {
      SameHistorySameView(service, w.cache, u, w);
    }
  }

  // --- Everything can arrive ---

  /** From any state in which the client is registered, sending and receiving alone delivers everything. */
  lemma {:induction false} DeliveryCanFinish(service: string, w: World) returns (more: seq<Action>)
    requires w.stage.Live?
    ensures forall a :: a in more ==> a == Send || a == Recv
    ensures var v := RunFrom(service, w, more);
            && v.buffer == [] && v.wire == [] && v.stage.Live?
            && v.view == w.view && v.history == w.history && v.phase == w.phase
    decreases |w.buffer|, |w.wire|
  {
    hide RunFrom;
    if w.buffer == [] && w.wire == [] {
      more := [];
      Nothing(service, w);
    } else {
      var a := if w.buffer != [] then Send else Recv;
      var rest := DeliveryCanFinish(service, Act(service, w, a));
      more := [a] + rest;
      FirstAction(service, w, a, rest);
    }
  }

  lemma Nothing(service: string, w: World)
    ensures RunFrom(service, w, []) == w
  {}

  lemma {:induction false} FirstAction(service: string, w: World, a: Action, rest: seq<Action>)
    requires Enabled(service, w, a)
    ensures RunFrom(service, w, [a] + rest) == RunFrom(service, Act(service, w, a), rest)
    decreases rest
  {
    hide Enabled, Act;
    if rest == [] {
      assert ([a] + rest)[..0] == [] && [a] + rest == [a];
      Nothing(service, w);
    } else {
      assert ([a] + rest)[..|rest|] == [a] + rest[..|rest| - 1];
      FirstAction(service, w, a, rest[..|rest| - 1]);
    }
  }
}
