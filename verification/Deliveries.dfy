/** What becomes of the events offered to the handlers of internal/ctrl/grpcserver/server.go, in any interleaving
    of subscriptions, publishing and shutdown. */
module Deliveries {
  import opened Sidecars
  import opened Handshake
  import opened Wrappers

  /** The action offers the handler an event that finds the channel closed or full. */
  predicate Drops(w: World, a: Action, h: nat) {
    && Enabled(w, a) && Changes(w, a, h) && h in w.handlers
    && (a.Deliver? || (a.ListInitial? && a.listed != []))
    && (w.handlers[h].box.closed || |w.handlers[h].box.buffer| >= CHANNEL_CAPACITY)
  }

  /** The action takes an event from the handler's channel and fails to pass it on. */
  predicate Fails(w: World, a: Action, h: nat) {
    Enabled(w, a) && a == FailSend(h)
  }

  function Dropped(actions: seq<Action>, h: nat): nat {
    if actions == [] then 0
    else
      var init := actions[..|actions| - 1];
      Dropped(init, h) + if Drops(Run(init), actions[|actions| - 1], h) then 1 else 0
  }

  function Failed(actions: seq<Action>, h: nat): nat {
    if actions == [] then 0
    else
      var init := actions[..|actions| - 1];
      Failed(init, h) + if Fails(Run(init), actions[|actions| - 1], h) then 1 else 0
  }

  /** Offers made to a handler that are not accounted for by what it has passed on and what is buffered. */
  function Missing(x: Handler): int {
    |x.offered| - |x.received| - |x.box.buffer|
  }

  /** A handler fails at most once, and if it has left its receive loop without failing, its channel is closed
      and empty. */
  predicate Left(x: Handler, failed: nat) {
    && failed <= 1 && (failed == 1 ==> x.stage.Exiting? || x.stage.Ended?)
    && (x.stage.Exiting? && failed == 0 ==> x.box == Mailbox([], true))
  }

  lemma HandlerAccount(w: World, a: Action, h: nat, failed: nat)
    requires Enabled(w, a) && h in w.handlers && Sound(w.handlers[h]) && Left(w.handlers[h], failed)
    ensures h in Act(w, a).handlers
    ensures var x, y := w.handlers[h], Act(w, a).handlers[h];
            && Missing(y) == Missing(x) + (if Drops(w, a, h) then 1 else 0) + (if Fails(w, a, h) then 1 else 0)
            && Left(y, failed + if Fails(w, a, h) then 1 else 0)
  {
    hide Subsequence;
    var x := w.handlers[h];
    assert Act(w, a).handlers[h] == if Changes(w, a, h) then HandlerAct(x, w.ready, a) else x;
  }

  lemma NewAccount(w: World, a: Action, h: nat)
    requires h !in w.handlers
    ensures !Drops(w, a, h) && !Fails(w, a, h)
    ensures Enabled(w, a) && h in Act(w, a).handlers ==>
              Missing(Act(w, a).handlers[h]) == 0 && Left(Act(w, a).handlers[h], 0)
  {}

  lemma {:induction false} Accounted(actions: seq<Action>, h: nat)
    ensures var w := Run(actions);
            if h in w.handlers then
              Missing(w.handlers[h]) == Dropped(actions, h) + Failed(actions, h)
              && Left(w.handlers[h], Failed(actions, h))
            else Dropped(actions, h) == 0 && Failed(actions, h) == 0
  {
    hide Act, Enabled, Left, Drops, Fails, Sound;
    if actions != [] {
      var init, a := actions[..|actions| - 1], actions[|actions| - 1];
      var w := Run(init);
      Accounted(init, h);
      NeedsEnabled(w, a, h);
      if h in w.handlers {
        StaysSound(init, h);
        if Enabled(w, a) {
          HandlerAccount(w, a, h, Failed(init, h));
        }
      } else {
        NewAccount(w, a, h);
      }
    }
  }

  lemma NeedsEnabled(w: World, a: Action, h: nat)
    ensures Drops(w, a, h) || Fails(w, a, h) ==> Enabled(w, a)
  {}

  lemma StaysSound(actions: seq<Action>, h: nat)
    requires h in Run(actions).handlers
    ensures Sound(Run(actions).handlers[h])
  {
    ChannelsStaySound(actions, h);
  }

  lemma {:induction false} FullSubsequence<T(!new)>(a: seq<T>, b: seq<T>)
    requires Subsequence(a, b)
    ensures |a| <= |b| && (|a| == |b| ==> a == b)
  {
    if a != [] {
      if Subsequence(a, b[..|b| - 1]) {
        FullSubsequence(a, b[..|b| - 1]);
      } else {
        FullSubsequence(a[..|a| - 1], b[..|b| - 1]);
        assert a == a[..|a| - 1] + [a[|a| - 1]] && b == b[..|b| - 1] + [b[|b| - 1]];
      }
    }
  }

  /** In every run, every event offered to a handler has been passed on, is buffered, found the channel closed or
      full, or is the one whose sending failed; and if none was lost, all were passed on in order. */
  lemma EveryOfferAccountedFor(actions: seq<Action>, h: nat)
    requires h in Run(actions).handlers
    ensures var x := Run(actions).handlers[h];
            && |x.offered| == |x.received| + |x.box.buffer| + Dropped(actions, h) + Failed(actions, h)
            && Failed(actions, h) <= 1
            && (x.received + x.box.buffer == x.offered <==> Dropped(actions, h) + Failed(actions, h) == 0)
  {
    hide Run, Dropped, Failed;
    Accounted(actions, h);
    StaysSound(actions, h);
    var x := Run(actions).handlers[h];
    FullSubsequence(x.received + x.box.buffer, x.offered);
  }

  /** A handler on its way out that has not failed has passed on all that its channel took, and its channel is
      closed: only the shutdown makes it leave. */
  lemma LeavesWithNothingBuffered(actions: seq<Action>, h: nat)
    requires h in Run(actions).handlers
    requires var x := Run(actions).handlers[h]; x.stage.Exiting? && Failed(actions, h) == 0
    ensures var x := Run(actions).handlers[h];
            x.box == Mailbox([], true) && |x.received| == |x.offered| - Dropped(actions, h)
  {
    hide Run, Dropped, Failed;
    Accounted(actions, h);
  }

  // --- Events reach their own service only ---

  /** The service a publisher has last looked up. */
  function Sought(actions: seq<Action>, p: nat): Option<string> {
    if actions == [] then None
    else
      var init, a := actions[..|actions| - 1], actions[|actions| - 1];
      if Enabled(Run(init), a) && a.Lookup? && a.p == p then Some(a.service) else Sought(init, p)
  }

  lemma SameService(w: World, a: Action, h: nat)
    requires Enabled(w, a) && h in w.handlers
    ensures h in Act(w, a).handlers && Act(w, a).handlers[h].service == w.handlers[h].service
  {}

  lemma PublishersStep(w: World, a: Action, p: nat)
    requires Enabled(w, a) && p in Act(w, a).publishers
    ensures a.Lookup? && a.p == p ==>
              var h := Act(w, a).publishers[p]; h in w.handlers && w.handlers[h].service == a.service
    ensures !(a.Lookup? && a.p == p) ==> p in w.publishers && Act(w, a).publishers[p] == w.publishers[p]
  {}

  /** Whenever an event is about to be offered, the handler is one of the service that was looked up for it. */
  lemma {:induction false} OnlyItsService(actions: seq<Action>, p: nat)
    requires p in Run(actions).publishers
    ensures var w := Run(actions);
            && Sought(actions, p).Some? && w.publishers[p] in w.handlers
            && w.handlers[w.publishers[p]].service == Sought(actions, p).value
  {
    hide Act, Enabled;
    if actions != [] {
      var init, a := actions[..|actions| - 1], actions[|actions| - 1];
      var w := Run(init);
      if Enabled(w, a) {
        PublishersStep(w, a, p);
        if !(a.Lookup? && a.p == p) {
          OnlyItsService(init, p);
        }
        SameService(w, a, Act(w, a).publishers[p]);
      } else {
        OnlyItsService(init, p);
      }
    }
  }
}
